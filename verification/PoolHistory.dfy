/** Whole runs of merges: each source's pool is a short function of its last answers,
    and sources do not disturb one another. */
module PoolHistory {
  import opened Prelude
  import opened Model
  import opened Merge

  // ---------------------------------------------------------------- the stale/miss invariant

  /** Stale means missed at least once, and the counter stays below the deletion window. */
  ghost predicate Counted(s: Server) {
    0 <= s.staleMisses < STALE_AFTER && (s.stale <==> s.staleMisses > 0)
  }

  lemma {:induction false} KeptCounted(servers: seq<Server>, src: string, answer: seq<Raw>)
    requires forall s | s in servers :: Counted(s)
    ensures forall s | s in Kept(servers, src, answer) :: Counted(s)
  {
    if |servers| > 0 {
      assert servers[0] in servers;
      KeptCounted(servers[1..], src, answer);
    }
  }

  lemma {:induction false} AddedCounted(hash: IdHash, servers: seq<Server>, src: string, answer: seq<Raw>)
    ensures forall s | s in Added(hash, servers, src, answer) :: Counted(s) && s.sourceId == src
  {
    if |answer| > 0 { AddedCounted(hash, servers, src, answer[..|answer| - 1]); }
  }

  /** Every merge keeps the counters of the whole pool consistent. */
  lemma MergeKeepsCounted(hash: IdHash, servers: seq<Server>, src: string, answer: seq<Raw>)
    requires forall s | s in servers :: Counted(s)
    ensures forall s | s in Merged(hash, servers, src, answer) :: Counted(s)
  {
    KeptCounted(servers, src, answer);
    AddedCounted(hash, servers, src, answer);
  }

  /** The first schema step (internal/store/store.go:117-125) on the servers of a state
      whose counters did not exist yet and therefore read as zero. */
  method MigrateMisses(servers: seq<Server>) returns (r: seq<Server>)
    ensures |r| == |servers|
    ensures forall i | 0 <= i < |servers| ::
      r[i] == servers[i].(staleMisses :=
                            if servers[i].stale && servers[i].staleMisses == 0 then 1 else servers[i].staleMisses)
    ensures (forall s | s in servers :: s.staleMisses == 0) ==> forall s | s in r :: Counted(s)
  {
    r := servers;
    for i := 0 to |servers|
      invariant |r| == |servers|
      invariant forall j | 0 <= j < i ::
        r[j] == servers[j].(staleMisses :=
                              if servers[j].stale && servers[j].staleMisses == 0 then 1 else servers[j].staleMisses)
      invariant forall j | i <= j < |servers| :: r[j] == servers[j]
    {
      if r[i].stale && r[i].staleMisses == 0 { r := r[i := r[i].(staleMisses := 1)]; }
    }
  }

  // ---------------------------------------------------------------- sources are independent

  function Own(servers: seq<Server>, src: string): seq<Server> {
    if |servers| == 0 then []
    else (if servers[0].sourceId == src then [servers[0]] else []) + Own(servers[1..], src)
  }

  lemma {:induction false} OwnAppend(a: seq<Server>, b: seq<Server>, src: string)
    ensures Own(a + b, src) == Own(a, src) + Own(b, src)
  {
    if |a| == 0 {
      assert a + b == b;
    } else {
      hide Own;
      assert a == [a[0]] + a[1..] && a + b == [a[0]] + (a[1..] + b);
      OwnCons(a[0], a[1..], src);
      OwnCons(a[0], a[1..] + b, src);
      OwnAppend(a[1..], b, src);
    }
  }

  lemma {:induction false} OwnAll(servers: seq<Server>, src: string, other: string)
    requires forall s | s in servers :: s.sourceId == src
    ensures Own(servers, src) == servers
    ensures other != src ==> Own(servers, other) == []
  {
    if |servers| > 0 {
      assert servers == [servers[0]] + servers[1..];
      OwnAll(servers[1..], src, other);
    }
  }

  lemma {:induction false} OwnHolds(servers: seq<Server>, src: string, k: MatchKey)
    ensures Holds(Own(servers, src), src, k) <==> Holds(servers, src, k)
  {
    if |servers| > 0 {
      hide Own, Holds;
      var s, rest := servers[0], servers[1..];
      assert servers == [s] + rest;
      HoldsCons(s, rest, src, k);
      OwnHolds(rest, src, k);
      OwnCons(s, rest, src);
      if s.sourceId == src {
        HoldsCons(s, Own(rest, src), src, k);
      } else {
        assert [] + Own(rest, src) == Own(rest, src);
      }
    } else {
      assert Own(servers, src) == servers;
    }
  }

  lemma HoldsCons(s: Server, rest: seq<Server>, src: string, k: MatchKey)
    ensures Holds([s] + rest, src, k) <==> (s.sourceId == src && StoredKey(s) == k) || Holds(rest, src, k)
  {
    var all := [s] + rest;
    assert all[0] == s;
    if Holds(rest, src, k) {
      var i :| 0 <= i < |rest| && rest[i].sourceId == src && StoredKey(rest[i]) == k;
      assert all[i + 1] == rest[i];
    }
    if Holds(all, src, k) {
      var i :| 0 <= i < |all| && all[i].sourceId == src && StoredKey(all[i]) == k;
      if i > 0 { assert rest[i - 1] == all[i]; }
    }
  }

  lemma KeptCons(s: Server, rest: seq<Server>, src: string, answer: seq<Raw>)
    ensures var head := Refreshed(s, Holds(rest, src, StoredKey(s)), src, answer);
      Kept([s] + rest, src, answer) == (if head.Some? then [head.value] else []) + Kept(rest, src, answer)
  {
    assert ([s] + rest)[1..] == rest;
  }

  lemma OwnCons(s: Server, rest: seq<Server>, src: string)
    ensures Own([s] + rest, src) == (if s.sourceId == src then [s] else []) + Own(rest, src)
  {
    assert ([s] + rest)[1..] == rest;
  }

  lemma {:induction false} KeptOwn(servers: seq<Server>, src: string, answer: seq<Raw>)
    ensures Own(Kept(servers, src, answer), src) == Kept(Own(servers, src), src, answer)
  {
    if |servers| > 0 {
      var s, rest := servers[0], servers[1..];
      hide Kept, Own, Holds;
      assert servers == [s] + rest;
      KeptOwn(rest, src, answer);
      KeptCons(s, rest, src, answer);
      OwnCons(s, rest, src);
      OwnHolds(rest, src, StoredKey(s));
      var head := Refreshed(s, Holds(rest, src, StoredKey(s)), src, answer);
      var heads := if head.Some? then [head.value] else [];
      OwnAppend(heads, Kept(rest, src, answer), src);
      if s.sourceId == src {
        KeptCons(s, Own(rest, src), src, answer);
      } else {
        assert [] + Own(rest, src) == Own(rest, src);
        assert [] + Own(Kept(rest, src, answer), src) == Own(Kept(rest, src, answer), src);
      }
    } else {
      assert Own(servers, src) == servers;
    }
  }

  lemma {:induction false} KeptOther(servers: seq<Server>, src: string, other: string, answer: seq<Raw>)
    requires other != src
    ensures Own(Kept(servers, src, answer), other) == Own(servers, other)
  {
    if |servers| > 0 {
      var s, rest := servers[0], servers[1..];
      hide Kept, Own, Holds;
      assert servers == [s] + rest;
      KeptOther(rest, src, other, answer);
      KeptCons(s, rest, src, answer);
      OwnCons(s, rest, other);
      var head := Refreshed(s, Holds(rest, src, StoredKey(s)), src, answer);
      assert [] + Kept(rest, src, answer) == Kept(rest, src, answer);
      assert [] + Own(rest, other) == Own(rest, other);
      if head.Some? { OwnCons(head.value, Kept(rest, src, answer), other); }
    }
  }

  lemma {:induction false} AddedOwn(hash: IdHash, servers: seq<Server>, src: string, answer: seq<Raw>)
    ensures Added(hash, Own(servers, src), src, answer) == Added(hash, servers, src, answer)
  {
    if |answer| > 0 {
      AddedOwn(hash, servers, src, answer[..|answer| - 1]);
      OwnHolds(servers, src, KeyOf(answer[|answer| - 1]));
    }
  }

  /** A merge acts on its own source as if the pool held nothing else... */
  lemma MergeOwn(hash: IdHash, servers: seq<Server>, src: string, answer: seq<Raw>)
    ensures Own(Merged(hash, servers, src, answer), src) == Merged(hash, Own(servers, src), src, answer)
  {
    hide Kept, Added, Own;
    KeptOwn(servers, src, answer);
    AddedOwn(hash, servers, src, answer);
    AddedCounted(hash, servers, src, answer);
    OwnAll(Added(hash, servers, src, answer), src, src);
    OwnAppend(Kept(servers, src, answer), Added(hash, servers, src, answer), src);
  }

  /** ...and leaves every other source's servers untouched, in place and order. */
  lemma MergeOther(hash: IdHash, servers: seq<Server>, src: string, other: string, answer: seq<Raw>)
    requires other != src
    ensures Own(Merged(hash, servers, src, answer), other) == Own(servers, other)
  {
    hide Kept, Added, Own;
    KeptOther(servers, src, other, answer);
    AddedCounted(hash, servers, src, answer);
    OwnAll(Added(hash, servers, src, answer), src, other);
    OwnAppend(Kept(servers, src, answer), Added(hash, servers, src, answer), other);
  }

  // ---------------------------------------------------------------- one source over time

  /** The pool of one source after its answers. */
  function RunFrom(hash: IdHash, src: string, pool: seq<Server>, answers: seq<seq<Raw>>): seq<Server> {
    if |answers| == 0 then pool
    else Merged(hash, RunFrom(hash, src, pool, answers[..|answers| - 1]), src, answers[|answers| - 1])
  }

  /** The same, starting empty. */
  function RunOf(hash: IdHash, src: string, answers: seq<seq<Raw>>): seq<Server> {
    RunFrom(hash, src, [], answers)
  }

  datatype Sighting = Sighting(age: nat, entry: Raw)

  /** When a key was last answered, counted in updates, and with what entry. */
  function Latest(answers: seq<seq<Raw>>, k: MatchKey): (r: Option<Sighting>)
    ensures r.Some? ==> KeyOf(r.value.entry) == k
  {
    if |answers| == 0 then None
    else match First(answers[|answers| - 1], k)
      case Some(p) => Some(Sighting(0, p))
      case None =>
        match Latest(answers[..|answers| - 1], k)
        case Some(x) => Some(Sighting(x.age + 1, x.entry))
        case None => None
  }

  /** The pooled server a sighting stands for. */
  function Pooled(hash: IdHash, src: string, k: MatchKey, x: Sighting): Server {
    Server(ServerId(hash, src, k), src, k.name, Field(x.entry, "type"), x.entry, 0, x.age > 0, x.age)
  }

  ghost predicate DistinctKeys(servers: seq<Server>) {
    forall i, j | 0 <= i < j < |servers| :: StoredKey(servers[i]) != StoredKey(servers[j])
  }

  /** The pool holds exactly the keys seen in the last three updates, each as last answered. */
  ghost predicate Reflects(hash: IdHash, src: string, servers: seq<Server>, answers: seq<seq<Raw>>) {
    && DistinctKeys(servers)
    && (forall s | s in servers ::
          var x := Latest(answers, StoredKey(s));
          x.Some? && x.value.age < STALE_AFTER && s == Pooled(hash, src, StoredKey(s), x.value))
    && (forall k :: Latest(answers, k).Some? && Latest(answers, k).value.age < STALE_AFTER ==> Holds(servers, src, k))
  }

  lemma LatestStep(answers: seq<seq<Raw>>, answer: seq<Raw>, k: MatchKey)
    ensures Latest(answers + [answer], k) ==
      match First(answer, k)
      case Some(p) => Some(Sighting(0, p))
      case None =>
        if Latest(answers, k).Some?
        then Some(Sighting(Latest(answers, k).value.age + 1, Latest(answers, k).value.entry)) else None
  {
    assert (answers + [answer])[..|answers|] == answers;
  }

  /** Where the members of a merged single-source pool come from. */
  lemma {:induction false} KeptMember(servers: seq<Server>, src: string, answer: seq<Raw>, s: Server)
    requires DistinctKeys(servers) && forall x | x in servers :: x.sourceId == src
    ensures s in Kept(servers, src, answer)
        <==> exists x | x in servers :: Refreshed(x, false, src, answer) == Some(s)
  {
    if |servers| > 0 {
      var x, rest := servers[0], servers[1..];
      assert servers == [x] + rest;
      KeptCons(x, rest, src, answer);
      forall i, j | 0 <= i < j < |rest| ensures StoredKey(rest[i]) != StoredKey(rest[j]) {
        assert servers[i + 1] == rest[i] && servers[j + 1] == rest[j];
      }
      KeptMember(rest, src, answer, s);
    }
  }

  lemma {:induction false} KeptKeys(servers: seq<Server>, src: string, answer: seq<Raw>)
    ensures forall s | s in Kept(servers, src, answer) ::
      exists i | 0 <= i < |servers| :: StoredKey(servers[i]) == StoredKey(s) && servers[i].sourceId == s.sourceId
  {
    if |servers| > 0 {
      var x, rest := servers[0], servers[1..];
      KeptKeys(rest, src, answer);
      var head := Refreshed(x, Holds(rest, src, StoredKey(x)), src, answer);
      forall s | s in Kept(servers, src, answer)
        ensures exists i | 0 <= i < |servers| ::
          StoredKey(servers[i]) == StoredKey(s) && servers[i].sourceId == s.sourceId
      {
        if head.Some? && s == head.value {
          assert StoredKey(servers[0]) == StoredKey(s);
        } else {
          var i :| 0 <= i < |rest| && StoredKey(rest[i]) == StoredKey(s) && rest[i].sourceId == s.sourceId;
          assert servers[i + 1] == rest[i];
        }
      }
    }
  }

  lemma {:induction false} KeptDistinct(servers: seq<Server>, src: string, answer: seq<Raw>)
    requires DistinctKeys(servers)
    ensures DistinctKeys(Kept(servers, src, answer))
  {
    if |servers| > 0 {
      var x, rest := servers[0], servers[1..];
      forall i, j | 0 <= i < j < |rest| ensures StoredKey(rest[i]) != StoredKey(rest[j]) {
        assert servers[i + 1] == rest[i] && servers[j + 1] == rest[j];
      }
      KeptDistinct(rest, src, answer);
      KeptKeys(rest, src, answer);
      var head := Refreshed(x, Holds(rest, src, StoredKey(x)), src, answer);
      if head.Some? {
        HeadKeyDiffers(servers, src, answer, head.value);
      }
    }
  }

  lemma HeadKeyDiffers(servers: seq<Server>, src: string, answer: seq<Raw>, head: Server)
    requires DistinctKeys(servers) && |servers| > 0 && StoredKey(head) == StoredKey(servers[0])
    ensures forall s | s in Kept(servers[1..], src, answer) :: StoredKey(s) != StoredKey(head)
  {
    var rest := servers[1..];
    KeptKeys(rest, src, answer);
    forall s | s in Kept(rest, src, answer) ensures StoredKey(s) != StoredKey(head) {
      var i :| 0 <= i < |rest| && StoredKey(rest[i]) == StoredKey(s) && rest[i].sourceId == s.sourceId;
      assert servers[i + 1] == rest[i];
    }
  }

  lemma {:induction false} AddedMember(hash: IdHash, servers: seq<Server>, src: string, answer: seq<Raw>, s: Server)
    ensures s in Added(hash, servers, src, answer)
        <==> exists k | First(answer, k).Some? && !Holds(servers, src, k) ::
               s == Fresh(hash, src, First(answer, k).value)
  {
    if |answer| > 0 {
      var init, p := answer[..|answer| - 1], answer[|answer| - 1];
      assert answer == init + [p];
      AddedMember(hash, servers, src, init, s);
      AddedStep(hash, servers, src, init, p);
      forall k ensures First(answer, k) == if First(init, k).Some? then First(init, k)
                                           else if Usable(p) && KeyOf(p) == k then Some(p) else None
      { FirstStep(init, p, k); }
    }
  }

  lemma {:induction false} AddedDistinct(hash: IdHash, servers: seq<Server>, src: string, answer: seq<Raw>)
    ensures DistinctKeys(Added(hash, servers, src, answer))
  {
    if |answer| > 0 {
      var init, p := answer[..|answer| - 1], answer[|answer| - 1];
      assert answer == init + [p];
      AddedDistinct(hash, servers, src, init);
      AddedStep(hash, servers, src, init, p);
      if Usable(p) && First(init, KeyOf(p)).None? {
        forall s | s in Added(hash, servers, src, init) ensures StoredKey(s) != KeyOf(p) {
          AddedMember(hash, servers, src, init, s);
        }
      }
    }
  }

  /** A server nothing has answered for since the start. */
  function Waiting(was: Server, updates: nat): Server {
    if updates == 0 then was else was.(stale := true, staleMisses := was.staleMisses + updates)
  }

  /** The server as its key was last answered, under its own ID and with its own latency. */
  predicate AsAnswered(hash: IdHash, src: string, s: Server, x: Sighting) {
    s == Pooled(hash, src, StoredKey(s), x).(id := s.id, delayMs := s.delayMs)
  }

  /** A server of the pool after answers: as its key was last answered, with the ID it had at the start
      or the one its key gets; or still waiting. */
  ghost predicate Explained(hash: IdHash, src: string, pool: seq<Server>, answers: seq<seq<Raw>>, s: Server) {
    var k := StoredKey(s);
    match Latest(answers, k)
    case Some(x) =>
      && x.age < STALE_AFTER && AsAnswered(hash, src, s, x)
      && (s == Pooled(hash, src, k, x)
          || exists was | was in pool :: was.id == s.id && was.delayMs == s.delayMs && StoredKey(was) == k)
    case None => s.staleMisses < STALE_AFTER && exists was | was in pool :: s == Waiting(was, |answers|)
  }

  /** What the pool holds after answers, from any start. */
  ghost predicate Follows(hash: IdHash, src: string, pool: seq<Server>, servers: seq<Server>,
                          answers: seq<seq<Raw>>) {
    && DistinctKeys(servers)
    && (forall s | s in servers :: s.sourceId == src && Explained(hash, src, pool, answers, s))
    && (forall k :: Latest(answers, k).Some? && Latest(answers, k).value.age < STALE_AFTER ==> Holds(servers, src, k))
  }

  /** One more answer moves the pool from following the history to following the longer one. */
  lemma FollowsStep(hash: IdHash, src: string, pool: seq<Server>, servers: seq<Server>, answers: seq<seq<Raw>>,
                    answer: seq<Raw>)
    requires Follows(hash, src, pool, servers, answers)
    ensures Follows(hash, src, pool, Merged(hash, servers, src, answer), answers + [answer])
  {
    hide Latest, First, Kept, Added, Holds, Explained;
    var next, longer := Merged(hash, servers, src, answer), answers + [answer];
    KeptDistinct(servers, src, answer);
    AddedDistinct(hash, servers, src, answer);
    PartsDistinct(hash, servers, src, answer);
    forall s | s in next ensures s.sourceId == src && Explained(hash, src, pool, longer, s) {
      NextIsExplained(hash, src, pool, servers, answers, answer, s);
    }
    forall k | Latest(longer, k).Some? && Latest(longer, k).value.age < STALE_AFTER ensures Holds(next, src, k) {
      NextHolds(hash, src, pool, servers, answers, answer, k);
    }
  }

  lemma PartsDistinct(hash: IdHash, servers: seq<Server>, src: string, answer: seq<Raw>)
    requires forall s | s in servers :: s.sourceId == src
    requires DistinctKeys(Kept(servers, src, answer)) && DistinctKeys(Added(hash, servers, src, answer))
    ensures DistinctKeys(Merged(hash, servers, src, answer))
  {
    var kept, added := Kept(servers, src, answer), Added(hash, servers, src, answer);
    KeptKeys(servers, src, answer);
    forall i, j | 0 <= i < |kept| && 0 <= j < |added| ensures StoredKey(kept[i]) != StoredKey(added[j]) {
      assert kept[i] in kept && added[j] in added;
      AddedMember(hash, servers, src, answer, added[j]);
      var n :| 0 <= n < |servers| && StoredKey(servers[n]) == StoredKey(kept[i])
          && servers[n].sourceId == kept[i].sourceId;
      assert servers[n] in servers;
    }
  }

  lemma NextIsExplained(hash: IdHash, src: string, pool: seq<Server>, servers: seq<Server>, answers: seq<seq<Raw>>,
                        answer: seq<Raw>, s: Server)
    requires Follows(hash, src, pool, servers, answers)
    requires s in Merged(hash, servers, src, answer)
    ensures s.sourceId == src && Explained(hash, src, pool, answers + [answer], s)
  {
    hide Latest, First, Kept, Added, Holds, Explained;
    if s in Kept(servers, src, answer) {
      KeptMember(servers, src, answer, s);
      var x :| x in servers && Refreshed(x, false, src, answer) == Some(s);
      KeptIsExplained(hash, src, pool, answers, answer, x, s);
    } else {
      AddedMember(hash, servers, src, answer, s);
      var k :| First(answer, k).Some? && !Holds(servers, src, k) && s == Fresh(hash, src, First(answer, k).value);
      FreshIsExplained(hash, src, pool, answers, answer, k);
    }
  }

  lemma KeptIsExplained(hash: IdHash, src: string, pool: seq<Server>, answers: seq<seq<Raw>>, answer: seq<Raw>,
                        x: Server, s: Server)
    requires x.sourceId == src && Explained(hash, src, pool, answers, x)
    requires Refreshed(x, false, src, answer) == Some(s)
    ensures s.sourceId == src && Explained(hash, src, pool, answers + [answer], s)
  {
    hide Latest, First;
    LatestStep(answers, answer, StoredKey(x));
    assert StoredKey(s) == StoredKey(x);
    if Latest(answers, StoredKey(x)).None? {
      var was :| was in pool && x == Waiting(was, |answers|);
      assert StoredKey(was) == StoredKey(x);
      if First(answer, StoredKey(x)).None? { assert s == Waiting(was, |answers + [answer]|); }
    }
  }

  lemma FreshIsExplained(hash: IdHash, src: string, pool: seq<Server>, answers: seq<seq<Raw>>, answer: seq<Raw>,
                         k: MatchKey)
    requires First(answer, k).Some?
    ensures Explained(hash, src, pool, answers + [answer], Fresh(hash, src, First(answer, k).value))
  {
    hide Latest, First;
    LatestStep(answers, answer, k);
  }

  lemma NextHolds(hash: IdHash, src: string, pool: seq<Server>, servers: seq<Server>, answers: seq<seq<Raw>>,
                  answer: seq<Raw>, k: MatchKey)
    requires Follows(hash, src, pool, servers, answers)
    requires Latest(answers + [answer], k).Some? && Latest(answers + [answer], k).value.age < STALE_AFTER
    ensures Holds(Merged(hash, servers, src, answer), src, k)
  {
    hide Latest, First, Kept, Added;
    var next := Merged(hash, servers, src, answer);
    LatestStep(answers, answer, k);
    if Holds(servers, src, k) {
      var i :| 0 <= i < |servers| && servers[i].sourceId == src && StoredKey(servers[i]) == k;
      var x := servers[i];
      assert x in servers && Explained(hash, src, pool, answers, x);
      assert Refreshed(x, false, src, answer).Some?;
      var s := Refreshed(x, false, src, answer).value;
      KeptMember(servers, src, answer, s);
      assert s in next;
    } else {
      var s := Fresh(hash, src, First(answer, k).value);
      AddedMember(hash, servers, src, answer, s);
      assert s in next;
    }
  }

  /** A pool of one source to start from. */
  ghost predicate Startable(src: string, pool: seq<Server>) {
    DistinctKeys(pool) && forall s | s in pool :: s.sourceId == src && Counted(s)
  }

  /** What any start and any answers lead to. */
  lemma {:induction false} RunFollows(hash: IdHash, src: string, pool: seq<Server>, answers: seq<seq<Raw>>)
    requires Startable(src, pool)
    ensures Follows(hash, src, pool, RunFrom(hash, src, pool, answers), answers)
  {
    if |answers| > 0 {
      hide Follows, Startable;
      var init := answers[..|answers| - 1];
      RunFollows(hash, src, pool, init);
      FollowsStep(hash, src, pool, RunFrom(hash, src, pool, init), init, answers[|answers| - 1]);
      assert answers == init + [answers[|answers| - 1]];
    } else {
      forall s | s in pool ensures Explained(hash, src, pool, answers, s) { assert s == Waiting(s, 0); }
    }
  }

  /** After any sequence of answers, the pool of a source that started empty is determined by the
      last three. */
  lemma RunReflects(hash: IdHash, src: string, answers: seq<seq<Raw>>)
    ensures Reflects(hash, src, RunOf(hash, src, answers), answers)
  {
    hide Latest;
    RunFollows(hash, src, [], answers);
  }

  // ---------------------------------------------------------------- convergence

  lemma {:induction false} LatestAppend(a: seq<seq<Raw>>, b: seq<seq<Raw>>, k: MatchKey)
    ensures Latest(b, k).Some? ==> Latest(a + b, k) == Latest(b, k)
    ensures Latest(b, k).None? && Latest(a + b, k).Some? ==> Latest(a + b, k).value.age >= |b|
  {
    if |b| > 0 {
      LatestAppend(a, b[..|b| - 1], k);
      assert (a + b)[..|a + b| - 1] == a + b[..|b| - 1];
    } else {
      assert a + b == a;
    }
  }

  /** The pool is what the last three answers say, but for IDs and latencies. */
  ghost predicate Settled(hash: IdHash, src: string, servers: seq<Server>, three: seq<seq<Raw>>) {
    && DistinctKeys(servers)
    && (forall s | s in servers ::
          var x := Latest(three, StoredKey(s));
          x.Some? && AsAnswered(hash, src, s, x.value))
    && (forall k :: Latest(three, k).Some? ==> Holds(servers, src, k))
  }

  /** Whatever a source's pool was, with counters in order and no key twice, three answers later its
      keys, counters and raw maps are those of the last three answers. */
  lemma PoolConverges(hash: IdHash, src: string, pool: seq<Server>, answers: seq<seq<Raw>>)
    requires Startable(src, pool) && |answers| >= 3
    ensures Settled(hash, src, RunFrom(hash, src, pool, answers), answers[|answers| - 3..])
  {
    hide Latest, RunFrom;
    var early, three := answers[..|answers| - 3], answers[|answers| - 3..];
    assert answers == early + three;
    RunFollows(hash, src, pool, answers);
    forall k
      ensures Latest(three, k).Some? ==> Latest(answers, k) == Latest(three, k) && Latest(three, k).value.age < 3
      ensures Latest(three, k).None? && Latest(answers, k).Some? ==> Latest(answers, k).value.age >= 3
    {
      LatestAppend(early, three, k);
      if Latest(three, k).Some? { LatestWhen(three, k); }
    }
  }

  lemma {:induction false} LatestWhen(answers: seq<seq<Raw>>, k: MatchKey)
    requires Latest(answers, k).Some?
    ensures var x := Latest(answers, k).value;
      && x.age < |answers| && First(answers[|answers| - 1 - x.age], k) == Some(x.entry)
      && forall i | |answers| - 1 - x.age < i < |answers| :: First(answers[i], k).None?
  {
    if First(answers[|answers| - 1], k).None? { LatestWhen(answers[..|answers| - 1], k); }
  }

  ghost predicate Answers(answer: seq<Raw>, k: MatchKey) {
    exists p | p in answer && Usable(p) :: KeyOf(p) == k
  }

  ghost predicate InLastThree(answers: seq<seq<Raw>>, k: MatchKey) {
    exists i | 0 <= i < |answers| && i >= |answers| - 3 :: Answers(answers[i], k)
  }

  lemma RecentIff(answers: seq<seq<Raw>>, k: MatchKey)
    ensures InLastThree(answers, k) <==> Latest(answers, k).Some? && Latest(answers, k).value.age < STALE_AFTER
  {
    hide Latest;
    forall i | 0 <= i < |answers| ensures Answers(answers[i], k) <==> First(answers[i], k).Some? { }
    if Latest(answers, k).Some? {
      LatestWhen(answers, k);
      assert Answers(answers[|answers| - 1 - Latest(answers, k).value.age], k);
    }
    if InLastThree(answers, k) {
      var i :| 0 <= i < |answers| && i >= |answers| - 3 && Answers(answers[i], k);
      SeenRecently(answers, k, |answers| - 1 - i);
    }
  }

  /** The keys of the pool are the union of the usable keys of the last three answers. */
  lemma KeysAreLastThree(hash: IdHash, src: string, answers: seq<seq<Raw>>, k: MatchKey)
    ensures Holds(RunOf(hash, src, answers), src, k) <==> InLastThree(answers, k)
  {
    hide RunOf, Latest;
    var run := RunOf(hash, src, answers);
    RunReflects(hash, src, answers);
    RecentIff(answers, k);
    if Holds(run, src, k) {
      var i :| 0 <= i < |run| && run[i].sourceId == src && StoredKey(run[i]) == k;
      assert run[i] in run;
    }
  }

  lemma {:induction false} SeenRecently(answers: seq<seq<Raw>>, k: MatchKey, age: nat)
    requires age < |answers| && First(answers[|answers| - 1 - age], k).Some?
    ensures Latest(answers, k).Some? && Latest(answers, k).value.age <= age
  {
    if First(answers[|answers| - 1], k).None? { SeenRecently(answers[..|answers| - 1], k, age - 1); }
  }

  // ---------------------------------------------------------------- many sources, interleaved

  datatype MergeEvent = MergeEvent(src: string, answer: seq<Raw>)

  function RunAll(hash: IdHash, servers: seq<Server>, events: seq<MergeEvent>): seq<Server> {
    if |events| == 0 then servers
    else
      var e := events[|events| - 1];
      Merged(hash, RunAll(hash, servers, events[..|events| - 1]), e.src, e.answer)
  }

  function AnswersOf(events: seq<MergeEvent>, src: string): seq<seq<Raw>> {
    if |events| == 0 then []
    else
      var init, e := AnswersOf(events[..|events| - 1], src), events[|events| - 1];
      if e.src == src then init + [e.answer] else init
  }

  /** However merges of different sources interleave, each source sees only its own answers. */
  lemma {:induction false} InterleavingIrrelevant(hash: IdHash, servers: seq<Server>, events: seq<MergeEvent>,
                                                  src: string)
    ensures Own(RunAll(hash, servers, events), src) == RunFrom(hash, src, Own(servers, src), AnswersOf(events, src))
  {
    if |events| > 0 {
      var init, e := events[..|events| - 1], events[|events| - 1];
      hide Merged, Own;
      InterleavingIrrelevant(hash, servers, init, src);
      if e.src == src {
        MergeOwn(hash, RunAll(hash, servers, init), src, e.answer);
        assert AnswersOf(events, src)[..|AnswersOf(init, src)|] == AnswersOf(init, src);
      } else {
        MergeOther(hash, RunAll(hash, servers, init), e.src, src, e.answer);
      }
    }
  }
}
