/** What a merge does to server IDs: which it keeps, which it drops, and when they stay distinct. */
module MergeIds {
  import opened Model
  import opened Merge
  import opened PoolHistory

  /** The third miss in a row: the answer lacks the server's key once too often. */
  ghost predicate Dropped(s: Server, src: string, answer: seq<Raw>) {
    s.sourceId == src && s.staleMisses + 1 >= STALE_AFTER && !Answers(answer, StoredKey(s))
  }

  /** The answer brings a key the source does not have yet. */
  ghost predicate Brings(servers: seq<Server>, src: string, answer: seq<Raw>, k: MatchKey) {
    Answers(answer, k) && !Holds(servers, src, k)
  }

  /** The ID is carried by some server after the merge. */
  ghost predicate Stays(hash: IdHash, servers: seq<Server>, src: string, answer: seq<Raw>, id: string) {
    || (exists s | s in servers :: s.id == id && !Dropped(s, src, answer))
    || (exists k | Brings(servers, src, answer, k) :: ServerId(hash, src, k) == id)
  }

  ghost predicate Carries(servers: seq<Server>, id: string) {
    exists s | s in servers :: s.id == id
  }

  lemma {:induction false} KeptIds(servers: seq<Server>, src: string, answer: seq<Raw>, id: string)
    ensures Carries(Kept(servers, src, answer), id)
        <==> exists s | s in servers :: s.id == id && !Dropped(s, src, answer)
  {
    if |servers| > 0 {
      hide Kept, Dropped, Refreshed, Holds;
      var s, rest := servers[0], servers[1..];
      assert servers == [s] + rest;
      KeptIds(rest, src, answer, id);
      KeptCons(s, rest, src, answer);
      var head := Refreshed(s, Holds(rest, src, StoredKey(s)), src, answer);
      var heads := if head.Some? then [head.value] else [];
      assert Kept(servers, src, answer) == heads + Kept(rest, src, answer);
      CarriesAppend(heads, Kept(rest, src, answer), id);
      assert Carries(heads, id) <==> s.id == id && !Dropped(s, src, answer) by {
        if head.Some? { assert head.value in heads; }
      }
      assert forall x :: x in servers <==> x == s || x in rest;
    } else {
      assert Kept(servers, src, answer) == [];
    }
  }

  lemma CarriesAppend(a: seq<Server>, b: seq<Server>, id: string)
    ensures Carries(a + b, id) <==> Carries(a, id) || Carries(b, id)
  {
    if s :| s in a && s.id == id { assert s in a + b; }
    if s :| s in b && s.id == id { assert s in a + b; }
  }

  lemma AddedIds(hash: IdHash, servers: seq<Server>, src: string, answer: seq<Raw>, id: string)
    ensures Carries(Added(hash, servers, src, answer), id)
        <==> exists k | Brings(servers, src, answer, k) :: ServerId(hash, src, k) == id
  {
    hide Added, First, Holds, ServerId;
    var added := Added(hash, servers, src, answer);
    if s :| s in added && s.id == id {
      var k := BroughtBy(hash, servers, src, answer, s);
    }
    if k :| Brings(servers, src, answer, k) && ServerId(hash, src, k) == id {
      var s := Brought(hash, servers, src, answer, k);
    }
  }

  /** An added server, and the key that brought it. */
  lemma BroughtBy(hash: IdHash, servers: seq<Server>, src: string, answer: seq<Raw>, s: Server) returns (k: MatchKey)
    requires s in Added(hash, servers, src, answer)
    ensures Brings(servers, src, answer, k) && s.id == ServerId(hash, src, k) && StoredKey(s) == k
  {
    hide Added, First, Holds, ServerId;
    AddedMember(hash, servers, src, answer, s);
    k :| First(answer, k).Some? && !Holds(servers, src, k) && s == Fresh(hash, src, First(answer, k).value);
  }

  lemma Brought(hash: IdHash, servers: seq<Server>, src: string, answer: seq<Raw>, k: MatchKey) returns (s: Server)
    requires Brings(servers, src, answer, k)
    ensures s in Added(hash, servers, src, answer) && s.id == ServerId(hash, src, k) && StoredKey(s) == k
  {
    hide Added, First, Holds, ServerId;
    s := Fresh(hash, src, First(answer, k).value);
    AddedMember(hash, servers, src, answer, s);
  }

  /** The IDs after a merge, exactly. */
  lemma MergedIds(hash: IdHash, servers: seq<Server>, src: string, answer: seq<Raw>, id: string)
    ensures Carries(Merged(hash, servers, src, answer), id) <==> Stays(hash, servers, src, answer, id)
  {
    hide Kept, Added, Dropped, Brings, Carries, ServerId;
    KeptIds(servers, src, answer, id);
    AddedIds(hash, servers, src, answer, id);
    CarriesAppend(Kept(servers, src, answer), Added(hash, servers, src, answer), id);
  }

  // ---------------------------------------------------------------- distinct IDs

  ghost predicate DistinctServers(servers: seq<Server>) {
    forall i, j | 0 <= i < j < |servers| :: servers[i].id != servers[j].id
  }

  /** Every brought key gets an ID no surviving server and no other brought key has. */
  ghost predicate NewIdsFree(hash: IdHash, servers: seq<Server>, src: string, answer: seq<Raw>) {
    forall k | Brings(servers, src, answer, k) ::
      && (forall s | s in servers && s.id == ServerId(hash, src, k) :: Dropped(s, src, answer))
      && (forall l | Brings(servers, src, answer, l) && ServerId(hash, src, l) == ServerId(hash, src, k) :: l == k)
  }

  lemma DistinctAppend(a: seq<Server>, b: seq<Server>)
    ensures DistinctServers(a + b)
        <==> DistinctServers(a) && DistinctServers(b) && forall x, y | x in a && y in b :: x.id != y.id
  {
    if DistinctServers(a + b) {
      forall i, j | 0 <= i < j < |a| ensures a[i].id != a[j].id { assert (a + b)[i].id != (a + b)[j].id; }
      forall i, j | 0 <= i < j < |b| ensures b[i].id != b[j].id {
        assert (a + b)[|a| + i].id != (a + b)[|a| + j].id;
      }
      forall x, y | x in a && y in b ensures x.id != y.id {
        var i :| 0 <= i < |a| && a[i] == x;
        var j :| 0 <= j < |b| && b[j] == y;
        assert (a + b)[i].id != (a + b)[|a| + j].id;
      }
    }
  }

  lemma {:induction false} KeptDistinctIds(servers: seq<Server>, src: string, answer: seq<Raw>)
    requires DistinctServers(servers)
    ensures DistinctServers(Kept(servers, src, answer))
  {
    if |servers| > 0 {
      hide Kept, Dropped, Refreshed, Holds, Carries;
      var s, rest := servers[0], servers[1..];
      assert servers == [s] + rest;
      DistinctAppend([s], rest);
      KeptDistinctIds(rest, src, answer);
      KeptCons(s, rest, src, answer);
      var head := Refreshed(s, Holds(rest, src, StoredKey(s)), src, answer);
      var heads := if head.Some? then [head.value] else [];
      forall x, y | x in heads && y in Kept(rest, src, answer) ensures x.id != y.id {
        KeptIdsFrom(rest, src, answer, y);
      }
      DistinctAppend(heads, Kept(rest, src, answer));
    } else {
      assert Kept(servers, src, answer) == [];
    }
  }

  lemma KeptIdsFrom(servers: seq<Server>, src: string, answer: seq<Raw>, s: Server)
    requires s in Kept(servers, src, answer)
    ensures exists x | x in servers :: x.id == s.id && !Dropped(x, src, answer)
  {
    hide Kept, Dropped;
    assert Carries(Kept(servers, src, answer), s.id);
    KeptIds(servers, src, answer, s.id);
  }

  lemma AddedDistinctIff(hash: IdHash, servers: seq<Server>, src: string, answer: seq<Raw>)
    ensures DistinctServers(Added(hash, servers, src, answer))
        <==> forall k, l | Brings(servers, src, answer, k) && Brings(servers, src, answer, l)
               && ServerId(hash, src, l) == ServerId(hash, src, k) :: l == k
  {
    hide Added, Brings, ServerId;
    var added := Added(hash, servers, src, answer);
    AddedDistinct(hash, servers, src, answer);
    if DistinctServers(added) {
      forall k, l | Brings(servers, src, answer, k) && Brings(servers, src, answer, l)
        && ServerId(hash, src, l) == ServerId(hash, src, k)
        ensures l == k
      {
        var x := Brought(hash, servers, src, answer, k);
        var y := Brought(hash, servers, src, answer, l);
      }
    } else {
      var i, j :| 0 <= i < j < |added| && added[i].id == added[j].id;
      var k := BroughtBy(hash, servers, src, answer, added[i]);
      var l := BroughtBy(hash, servers, src, answer, added[j]);
      assert StoredKey(added[i]) != StoredKey(added[j]);
    }
  }

  /** A merge keeps server IDs distinct iff the IDs it mints are free and different. */
  lemma MergeDistinctIff(hash: IdHash, servers: seq<Server>, src: string, answer: seq<Raw>)
    requires DistinctServers(servers)
    ensures DistinctServers(Merged(hash, servers, src, answer)) <==> NewIdsFree(hash, servers, src, answer)
  {
    hide Kept, Added, Dropped, Brings, ServerId, DistinctServers;
    var kept, added := Kept(servers, src, answer), Added(hash, servers, src, answer);
    KeptDistinctIds(servers, src, answer);
    AddedDistinctIff(hash, servers, src, answer);
    DistinctAppend(kept, added);
    if NewIdsFree(hash, servers, src, answer) {
      forall x, y | x in kept && y in added ensures x.id != y.id {
        var k := BroughtBy(hash, servers, src, answer, y);
        KeptIdsFrom(servers, src, answer, x);
      }
    }
    if forall x, y | x in kept && y in added :: x.id != y.id {
      forall k, s | Brings(servers, src, answer, k) && s in servers && s.id == ServerId(hash, src, k)
        ensures Dropped(s, src, answer)
      {
        var y := Brought(hash, servers, src, answer, k);
        assert !Carries(kept, s.id);
        KeptIds(servers, src, answer, s.id);
      }
    }
  }
}
