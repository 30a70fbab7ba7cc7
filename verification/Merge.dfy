/** The subscription pool: Merge (internal/subscription/merge.go:29-134). */
module Merge {
  import opened Prelude
  import opened Text
  import opened Model

  const STALE_AFTER := 3

  datatype MatchKey = MatchKey(name: string, server: string, port: string)

  /** The digest of source and match key in a server ID, left uninterpreted. */
  type IdHash = (string, MatchKey) -> string

  function ServerId(hash: IdHash, src: string, k: MatchKey): (id: string)
    ensures |id| >= 4 && id[..4] == "srv_"
  {
    "srv_" + hash(src, k)
  }

  function AsString(v: Value): string {
    match v
    case Null => ""
    case Str(t) => t
    case Number(n) => if n < 0 then "-" + Itoa(-n) else Itoa(n)
    case Shown(t) => t
  }

  function Field(raw: Raw, key: string): string {
    if key in raw then AsString(raw[key]) else ""
  }

  function KeyOf(p: Raw): MatchKey {
    MatchKey(Field(p, "name"), Field(p, "server"), Field(p, "port"))
  }

  function StoredKey(s: Server): MatchKey {
    MatchKey(s.name, Field(s.raw, "server"), Field(s.raw, "port"))
  }

  predicate Usable(p: Raw) {
    KeyOf(p).name != "" && KeyOf(p).server != ""
  }

  // ---------------------------------------------------------------- what a merge means

  /** The entry an answer gives for a key: the first usable one. */
  function First(answer: seq<Raw>, k: MatchKey): (r: Option<Raw>)
    ensures r.Some? ==> r.value in answer && Usable(r.value) && KeyOf(r.value) == k
    ensures r.None? ==> forall p | p in answer && Usable(p) :: KeyOf(p) != k
  {
    if |answer| == 0 then None
    else
      var init, p := answer[..|answer| - 1], answer[|answer| - 1];
      assert answer == init + [p];
      if First(init, k).Some? then First(init, k)
      else if Usable(p) && KeyOf(p) == k then Some(p) else None
  }

  predicate Holds(servers: seq<Server>, src: string, k: MatchKey) {
    exists i | 0 <= i < |servers| :: servers[i].sourceId == src && StoredKey(servers[i]) == k
  }

  function Updated(s: Server, p: Raw): Server {
    s.(raw := p, kind := Field(p, "type"), name := KeyOf(p).name, stale := false, staleMisses := 0)
  }

  function Missed(s: Server): Server {
    s.(stale := true, staleMisses := s.staleMisses + 1)
  }

  function Fresh(hash: IdHash, src: string, p: Raw): Server {
    Server(ServerId(hash, src, KeyOf(p)), src, KeyOf(p).name, Field(p, "type"), p, 0, false, 0)
  }

  /** What becomes of one pooled server; again says that a later one holds the same key. */
  function Refreshed(s: Server, again: bool, src: string, answer: seq<Raw>): Option<Server> {
    if s.sourceId != src then Some(s)
    else match First(answer, StoredKey(s))
      case Some(p) => Some(if again then s else Updated(s, p))
      case None => if s.staleMisses + 1 >= STALE_AFTER then None else Some(Missed(s))
  }

  function Kept(servers: seq<Server>, src: string, answer: seq<Raw>): seq<Server> {
    if |servers| == 0 then []
    else
      var s, rest := servers[0], servers[1..];
      var head := Refreshed(s, Holds(rest, src, StoredKey(s)), src, answer);
      (if head.Some? then [head.value] else []) + Kept(rest, src, answer)
  }

  /** New servers, in order of first appearance. */
  function Added(hash: IdHash, servers: seq<Server>, src: string, answer: seq<Raw>): seq<Server> {
    if |answer| == 0 then []
    else
      var init, p := answer[..|answer| - 1], answer[|answer| - 1];
      Added(hash, servers, src, init)
      + (if Usable(p) && First(init, KeyOf(p)).None? && !Holds(servers, src, KeyOf(p))
         then [Fresh(hash, src, p)] else [])
  }

  function Merged(hash: IdHash, servers: seq<Server>, src: string, answer: seq<Raw>): seq<Server> {
    Kept(servers, src, answer) + Added(hash, servers, src, answer)
  }

  ghost function AnswerKeys(answer: seq<Raw>): set<MatchKey> {
    set p | p in answer && Usable(p) :: KeyOf(p)
  }

  // ---------------------------------------------------------------- the in-place algorithm

  datatype MergeResult = MergeResult(added: nat, updated: nat, stale: nat, deleted: nat)

  /** The part of the state document the updater works on. */
  class LiveState {
    var sources: seq<Source>
    var servers: seq<Server>

    constructor (sources: seq<Source>, servers: seq<Server>)
      ensures this.sources == sources && this.servers == servers
    {
      this.sources, this.servers := sources, servers;
    }

    /** Index of the last server of the source under each key. */
    method IndexPool(src: string) returns (current: map<MatchKey, nat>)
      ensures forall k :: k in current <==> Holds(servers, src, k)
      ensures forall k | k in current :: IsLast(servers, src, k, current[k])
    {
      current := map[];
      for i := 0 to |servers|
        invariant forall k :: k in current <==> Holds(servers[..i], src, k)
        invariant forall k | k in current :: current[k] < i && IsLast(servers[..i], src, k, current[k])
      {
        Prefixes(servers, i);
        if servers[i].sourceId == src { current := current[StoredKey(servers[i]) := i]; }
      }
      assert servers[..|servers|] == servers;
    }

    /** The loop over the fetched proxies: update in place or append. */
    method FoldAnswer(hash: IdHash, src: string, answer: seq<Raw>, current: map<MatchKey, nat>)
      returns (seen: set<MatchKey>, added: nat, updated: nat)
      requires forall k :: k in current <==> Holds(servers, src, k)
      requires forall k | k in current :: IsLast(servers, src, k, current[k])
      modifies `servers
      ensures Folded(hash, old(servers), servers, src, answer)
      ensures seen == AnswerKeys(answer)
      ensures added == |servers| - |old(servers)| && added + updated == |seen|
    {
      hide Folded, Added, AnswerKeys, ServerId;
      seen, added, updated := {}, 0, 0;
      ghost var was := servers;
      FoldStarts(hash, was, src);
      assert answer[..0] == [];
      for n := 0 to |answer|
        invariant |servers| == |was| + added && added + updated == |seen|
        invariant Folded(hash, was, servers, src, answer[..n])
        invariant seen == AnswerKeys(answer[..n])
      {
        var p := answer[n];
        var key := KeyOf(p);
        Prefixes(answer, n);
        KeysStep(answer[..n], p);
        if key.name == "" || key.server == "" {
          FoldSkips(hash, was, servers, src, answer[..n], p);
          continue;
        }
        if key in seen {
          FoldSkips(hash, was, servers, src, answer[..n], p);
          continue;
        }
        seen := seen + {key};
        if key in current {
          FoldUpdates(hash, was, servers, src, answer[..n], p, current[key]);
          var srv := servers[current[key]];
          servers := servers[current[key] := srv.(raw := p, kind := Field(p, "type"), name := key.name,
                                                  stale := false, staleMisses := 0)];
          updated := updated + 1;
        } else {
          FoldAppends(hash, was, servers, src, answer[..n], p);
          servers := servers + [Server(ServerId(hash, src, key), src, key.name, Field(p, "type"), p, 0, false, 0)];
          added := added + 1;
        }
      }
      assert answer[..|answer|] == answer;
    }

    /** The rebuild loop: count misses, drop servers at the window. */
    method Rebuild(src: string, seen: set<MatchKey>) returns (stale: nat, deleted: nat)
      modifies `servers
      ensures servers == Rebuilt(old(servers), src, seen)
      ensures deleted == |old(servers)| - |servers|
      ensures stale == Aged(old(servers), src, seen)
    {
      var next: seq<Server> := [];
      stale, deleted := 0, 0;
      for i := 0 to |servers|
        invariant servers == old(servers)
        invariant next == Rebuilt(servers[..i], src, seen)
        invariant stale == Aged(servers[..i], src, seen)
        invariant deleted == i - |next|
      {
        var s := servers[i];
        hide Rebuilt, Aged;
        RebuiltStep(servers, i, src, seen);
        if s.sourceId != src || StoredKey(s) in seen {
          next := next + [s];
        } else if s.staleMisses + 1 >= STALE_AFTER {
          deleted := deleted + 1;
        } else {
          next := next + [s.(stale := true, staleMisses := s.staleMisses + 1)];
          stale := stale + 1;
        }
      }
      assert servers[..|servers|] == servers;
      servers := next;
    }

    method Merge(hash: IdHash, src: string, answer: seq<Raw>) returns (res: MergeResult)
      modifies `servers
      ensures servers == Merged(hash, old(servers), src, answer)
      ensures res.added + res.updated == |AnswerKeys(answer)|
      ensures res.added == |Added(hash, old(servers), src, answer)|
      ensures |servers| + res.deleted == |old(servers)| + res.added
      ensures res.stale == Aged(old(servers), src, AnswerKeys(answer))
    {
      ghost var was := servers;
      var current := IndexPool(src);
      var seen, added, updated := FoldAnswer(hash, src, answer, current);
      assert servers[|was|..] == Added(hash, was, src, answer);
      FoldThenRebuild(hash, was, servers, src, answer);
      var stale, deleted := Rebuild(src, seen);
      res := MergeResult(added, updated, stale, deleted);
    }
  }

  // ---------------------------------------------------------------- the loops against the meaning

  ghost predicate IsLast(servers: seq<Server>, src: string, k: MatchKey, i: nat) {
    && i < |servers| && servers[i].sourceId == src && StoredKey(servers[i]) == k
    && forall j | i < j < |servers| && servers[j].sourceId == src :: StoredKey(servers[j]) != k
  }

  /** An old server after the first n entries of the answer. */
  ghost function AfterFold(was: seq<Server>, i: int, src: string, answer: seq<Raw>): Server
    requires 0 <= i < |was|
  {
    var k := StoredKey(was[i]);
    if was[i].sourceId == src && First(answer, k).Some? && IsLast(was, src, k, i)
    then Updated(was[i], First(answer, k).value) else was[i]
  }

  /** The pool part-way through the answer: old servers updated, new ones appended. */
  ghost predicate Folded(hash: IdHash, was: seq<Server>, now: seq<Server>, src: string, answer: seq<Raw>) {
    && |now| >= |was|
    && (forall i | 0 <= i < |was| :: now[i] == AfterFold(was, i, src, answer))
    && now[|was|..] == Added(hash, was, src, answer)
  }

  lemma KeysStep(init: seq<Raw>, p: Raw)
    ensures AnswerKeys([]) == {}
    ensures AnswerKeys(init + [p]) == AnswerKeys(init) + (if Usable(p) then {KeyOf(p)} else {})
    ensures forall k :: k in AnswerKeys(init) <==> First(init, k).Some?
  {
  }

  lemma FirstStep(init: seq<Raw>, p: Raw, k: MatchKey)
    ensures First(init + [p], k) == if First(init, k).Some? then First(init, k)
                                    else if Usable(p) && KeyOf(p) == k then Some(p) else None
  {
    assert (init + [p])[..|init|] == init;
  }

  lemma AddedStep(hash: IdHash, was: seq<Server>, src: string, init: seq<Raw>, p: Raw)
    ensures Added(hash, was, src, init + [p]) == Added(hash, was, src, init)
      + (if Usable(p) && First(init, KeyOf(p)).None? && !Holds(was, src, KeyOf(p)) then [Fresh(hash, src, p)] else [])
  {
    assert (init + [p])[..|init|] == init;
  }

  lemma FoldStarts(hash: IdHash, was: seq<Server>, src: string)
    ensures Folded(hash, was, was, src, []) && AnswerKeys([]) == {}
  {
  }

  lemma FoldSkips(hash: IdHash, was: seq<Server>, now: seq<Server>, src: string, init: seq<Raw>, p: Raw)
    requires Folded(hash, was, now, src, init)
    requires !Usable(p) || First(init, KeyOf(p)).Some?
    ensures Folded(hash, was, now, src, init + [p])
  {
    hide Added, First, Holds;
    AddedStep(hash, was, src, init, p);
    forall i | 0 <= i < |was| ensures now[i] == AfterFold(was, i, src, init + [p]) {
      FirstStep(init, p, StoredKey(was[i]));
    }
  }

  lemma FoldUpdates(hash: IdHash, was: seq<Server>, now: seq<Server>, src: string, init: seq<Raw>, p: Raw, at: nat)
    requires Folded(hash, was, now, src, init)
    requires Usable(p) && First(init, KeyOf(p)).None?
    requires Holds(was, src, KeyOf(p)) && IsLast(was, src, KeyOf(p), at)
    ensures at < |now| && Folded(hash, was, now[at := Updated(now[at], p)], src, init + [p])
  {
    hide Added, First, Holds;
    AddedStep(hash, was, src, init, p);
    var next := now[at := Updated(now[at], p)];
    forall i | 0 <= i < |was| ensures next[i] == AfterFold(was, i, src, init + [p]) {
      FirstStep(init, p, StoredKey(was[i]));
    }
    assert next[|was|..] == now[|was|..];
  }

  lemma FoldAppends(hash: IdHash, was: seq<Server>, now: seq<Server>, src: string, init: seq<Raw>, p: Raw)
    requires Folded(hash, was, now, src, init)
    requires Usable(p) && First(init, KeyOf(p)).None? && !Holds(was, src, KeyOf(p))
    ensures Folded(hash, was, now + [Fresh(hash, src, p)], src, init + [p])
  {
    hide Added, First;
    AddedStep(hash, was, src, init, p);
    var next := now + [Fresh(hash, src, p)];
    forall i | 0 <= i < |was| ensures next[i] == AfterFold(was, i, src, init + [p]) {
      FirstStep(init, p, StoredKey(was[i]));
    }
    assert next[|was|..] == now[|was|..] + [Fresh(hash, src, p)];
  }

  function Rebuilt(servers: seq<Server>, src: string, seen: set<MatchKey>): (r: seq<Server>)
    ensures |r| <= |servers|
  {
    if |servers| == 0 then []
    else
      var s, rest := servers[0], Rebuilt(servers[1..], src, seen);
      if s.sourceId != src || StoredKey(s) in seen then [s] + rest
      else if s.staleMisses + 1 >= STALE_AFTER then rest
      else [Missed(s)] + rest
  }

  function Aged(servers: seq<Server>, src: string, seen: set<MatchKey>): nat {
    if |servers| == 0 then 0
    else
      var s, rest := servers[0], Aged(servers[1..], src, seen);
      if s.sourceId == src && StoredKey(s) !in seen && s.staleMisses + 1 < STALE_AFTER then rest + 1 else rest
  }

  lemma {:induction false} RebuiltAppend(a: seq<Server>, b: seq<Server>, src: string, seen: set<MatchKey>)
    ensures Rebuilt(a + b, src, seen) == Rebuilt(a, src, seen) + Rebuilt(b, src, seen)
    ensures Aged(a + b, src, seen) == Aged(a, src, seen) + Aged(b, src, seen)
  {
    if |a| == 0 {
      assert a + b == b;
    } else {
      assert (a + b)[1..] == a[1..] + b;
      RebuiltAppend(a[1..], b, src, seen);
    }
  }

  /** One more server of the pool. */
  lemma RebuiltStep(servers: seq<Server>, i: nat, src: string, seen: set<MatchKey>)
    requires i < |servers|
    ensures var s := servers[i];
      var gone := s.sourceId == src && StoredKey(s) !in seen;
      && Rebuilt(servers[..i + 1], src, seen) == Rebuilt(servers[..i], src, seen)
           + (if !gone then [s] else if s.staleMisses + 1 >= STALE_AFTER then [] else [Missed(s)])
      && Aged(servers[..i + 1], src, seen) == Aged(servers[..i], src, seen)
           + (if gone && s.staleMisses + 1 < STALE_AFTER then 1 else 0)
  {
    Prefixes(servers, i);
    RebuiltAppend(servers[..i], [servers[i]], src, seen);
  }

  lemma FreshSurvives(hash: IdHash, src: string, p: Raw, seen: set<MatchKey>)
    requires KeyOf(p) in seen
    ensures Rebuilt([Fresh(hash, src, p)], src, seen) == [Fresh(hash, src, p)]
    ensures Aged([Fresh(hash, src, p)], src, seen) == 0
  {
    assert StoredKey(Fresh(hash, src, p)) == KeyOf(p);
  }

  lemma {:induction false} AddedSurvive(hash: IdHash, was: seq<Server>, src: string, answer: seq<Raw>,
      seen: set<MatchKey>)
    requires AnswerKeys(answer) <= seen
    ensures Rebuilt(Added(hash, was, src, answer), src, seen) == Added(hash, was, src, answer)
    ensures Aged(Added(hash, was, src, answer), src, seen) == 0
  {
    if |answer| > 0 {
      var init, p := answer[..|answer| - 1], answer[|answer| - 1];
      assert answer == init + [p];
      KeysStep(init, p);
      AddedSurvive(hash, was, src, init, seen);
      AddedStep(hash, was, src, init, p);
      if Usable(p) && First(init, KeyOf(p)).None? && !Holds(was, src, KeyOf(p)) {
        FreshSurvives(hash, src, p, seen);
        RebuiltAppend(Added(hash, was, src, init), [Fresh(hash, src, p)], src, seen);
      } else {
        assert Added(hash, was, src, answer) == Added(hash, was, src, init);
      }
    }
  }

  lemma UpdatedKey(s: Server, p: Raw)
    requires KeyOf(p) == StoredKey(s)
    ensures StoredKey(Updated(s, p)) == StoredKey(s)
  {
  }

  lemma LaterHolder(was: seq<Server>, j: nat, src: string)
    requires j < |was| && was[j].sourceId == src
    ensures IsLast(was, src, StoredKey(was[j]), j) <==> !Holds(was[j + 1..], src, StoredKey(was[j]))
  {
    var rest := was[j + 1..];
    if Holds(rest, src, StoredKey(was[j])) {
      var i :| 0 <= i < |rest| && rest[i].sourceId == src && StoredKey(rest[i]) == StoredKey(was[j]);
      assert was[j + 1 + i] == rest[i];
    } else {
      forall i | j < i < |was| && was[i].sourceId == src ensures StoredKey(was[i]) != StoredKey(was[j]) {
        assert rest[i - j - 1] == was[i];
      }
    }
  }

  /** Rebuilding the updated old servers gives exactly the kept ones. */
  lemma {:induction false} RebuiltIsKept(was: seq<Server>, now: seq<Server>, j: nat, src: string, answer: seq<Raw>)
    requires j <= |was| == |now|
    requires forall i | 0 <= i < |was| :: now[i] == AfterFold(was, i, src, answer)
    ensures Rebuilt(now[j..], src, AnswerKeys(answer)) == Kept(was[j..], src, answer)
    ensures Aged(now[j..], src, AnswerKeys(answer)) == Aged(was[j..], src, AnswerKeys(answer))
    decreases |was| - j
  {
    if j < |was| {
      RebuiltIsKept(was, now, j + 1, src, answer);
      assert was[j..][0] == was[j] && was[j..][1..] == was[j + 1..];
      assert now[j..][0] == now[j] && now[j..][1..] == now[j + 1..];
      KeysStep(answer, map[]);
      if was[j].sourceId == src {
        LaterHolder(was, j, src);
        if First(answer, StoredKey(was[j])).Some? { UpdatedKey(was[j], First(answer, StoredKey(was[j])).value); }
      }
    }
  }

  lemma FoldThenRebuild(hash: IdHash, was: seq<Server>, now: seq<Server>, src: string, answer: seq<Raw>)
    requires Folded(hash, was, now, src, answer)
    ensures Rebuilt(now, src, AnswerKeys(answer)) == Merged(hash, was, src, answer)
    ensures Aged(now, src, AnswerKeys(answer)) == Aged(was, src, AnswerKeys(answer))
  {
    hide Kept, Rebuilt, Added, Aged;
    var seen := AnswerKeys(answer);
    var front, back := now[..|was|], now[|was|..];
    assert now == front + back;
    RebuiltAppend(front, back, src, seen);
    AddedSurvive(hash, was, src, answer, seen);
    RebuiltIsKept(was, front, 0, src, answer);
    assert was[0..] == was && front[0..] == front;
  }
}
