/** Minting of IDs and orders (internal/api/api.go:2289-2381). */
module Ids {
  import opened Prelude
  import opened Text
  import opened Model

  function IdText(prefix: string, n: nat): string {
    prefix + "_" + Itoa(n)
  }

  lemma IdTextInjective(prefix: string, m: nat, n: nat)
    requires IdText(prefix, m) == IdText(prefix, n)
    ensures m == n
  {
    PrefixItoaInjective(prefix + "_", m, n);
  }

  function SourceIds(s: seq<Source>): set<string> { set x | x in s :: x.id }

  function ServerIds(s: seq<Server>): set<string> { set x | x in s :: x.id }

  function GroupIds(s: seq<Group>): set<string> { set x | x in s :: x.id }

  function RouteIds(s: seq<Route>): set<string> { set x | x in s :: x.id }

  /** The one namespace IDs are minted in. */
  function AllIds(st: State): set<string> {
    SourceIds(st.sources) + ServerIds(st.servers) + GroupIds(st.groups) + RouteIds(st.routes)
  }

  ghost function Probed(prefix: string, n: nat): set<string> {
    set k | 1 <= k < n :: IdText(prefix, k)
  }

  /** Each taken candidate uses up one existing ID: the pigeonhole behind termination. */
  lemma ProbeUsesUp(prefix: string, ids: set<string>, n: nat)
    requires n >= 1 && IdText(prefix, n) in ids
    ensures |ids - Probed(prefix, n + 1)| == |ids - Probed(prefix, n)| - 1
  {
    var id := IdText(prefix, n);
    if id in Probed(prefix, n) {
      var k :| 1 <= k < n && IdText(prefix, k) == id;
      IdTextInjective(prefix, k, n);
    }
    forall x ensures x in Probed(prefix, n + 1) <==> x in Probed(prefix, n) + {id} {
      if x in Probed(prefix, n + 1) {
        var k :| 1 <= k < n + 1 && IdText(prefix, k) == x;
        if k < n { assert x in Probed(prefix, n); }
      }
    }
    assert ids - Probed(prefix, n + 1) == (ids - Probed(prefix, n)) - {id};
  }

  /** The least number from n on whose ID is free. */
  function FirstFree(prefix: string, ids: set<string>, n: nat): (r: nat)
    requires n >= 1
    ensures r >= n && IdText(prefix, r) !in ids
    ensures forall k | n <= k < r :: IdText(prefix, k) in ids
    ensures r - n <= |ids - Probed(prefix, n)|
    decreases |ids - Probed(prefix, n)|
  {
    if IdText(prefix, n) !in ids then n
    else
      ProbeUsesUp(prefix, ids, n);
      FirstFree(prefix, ids, n + 1)
  }

  function NewId(prefix: string, ids: set<string>): (id: string)
    ensures id !in ids
  {
    IdText(prefix, FirstFree(prefix, ids, 1))
  }

  lemma NewIdIsLeast(prefix: string, ids: set<string>, n: nat)
    ensures NewId(prefix, ids) == IdText(prefix, n) <==>
      n >= 1 && IdText(prefix, n) !in ids && forall k | 1 <= k < n :: IdText(prefix, k) in ids
    ensures 1 <= FirstFree(prefix, ids, 1) <= |ids| + 1
  {
    var f := FirstFree(prefix, ids, 1);
    assert Probed(prefix, 1) == {};
    assert ids - Probed(prefix, 1) == ids;
    if NewId(prefix, ids) == IdText(prefix, n) { IdTextInjective(prefix, f, n); }
  }

  /** The four scans of one probe. */
  method Taken(id: string, st: State) returns (taken: bool)
    ensures taken <==> id in AllIds(st)
  {
    taken := false;
    for i := 0 to |st.sources|
      invariant taken <==> id in SourceIds(st.sources[..i])
    {
      Prefixes(st.sources, i);
      if st.sources[i].id == id { taken := true; }
    }
    assert st.sources[..|st.sources|] == st.sources;
    ghost var before := taken;
    for i := 0 to |st.servers|
      invariant taken <==> before || id in ServerIds(st.servers[..i])
    {
      Prefixes(st.servers, i);
      if st.servers[i].id == id { taken := true; }
    }
    assert st.servers[..|st.servers|] == st.servers;
    before := taken;
    for i := 0 to |st.groups|
      invariant taken <==> before || id in GroupIds(st.groups[..i])
    {
      Prefixes(st.groups, i);
      if st.groups[i].id == id { taken := true; }
    }
    assert st.groups[..|st.groups|] == st.groups;
    before := taken;
    for i := 0 to |st.routes|
      invariant taken <==> before || id in RouteIds(st.routes[..i])
    {
      Prefixes(st.routes, i);
      if st.routes[i].id == id { taken := true; }
    }
    assert st.routes[..|st.routes|] == st.routes;
  }

  /** newID: probe prefix_1, prefix_2, ... until one is free; at most one probe more than there
      are IDs. */
  method MintId(prefix: string, st: State) returns (id: string, probes: nat)
    ensures id == NewId(prefix, AllIds(st)) && id !in AllIds(st)
    ensures id == IdText(prefix, probes) && forall k | 1 <= k < probes :: IdText(prefix, k) in AllIds(st)
    ensures 1 <= probes <= |AllIds(st)| + 1
  {
    ghost var ids := AllIds(st);
    hide AllIds, FirstFree, IdText;
    NewIdIsLeast(prefix, ids, FirstFree(prefix, ids, 1));
    probes := 1;
    while true
      invariant 1 <= probes <= FirstFree(prefix, ids, 1)
      invariant forall k | 1 <= k < probes :: IdText(prefix, k) in ids
      decreases FirstFree(prefix, ids, 1) - probes
    {
      id := IdText(prefix, probes);
      var taken := Taken(id, st);
      if !taken {
        NewIdIsLeast(prefix, ids, probes);
        return;
      }
      probes := probes + 1;
    }
  }

  // ---------------------------------------------------------------- orders

  function MaxOrder(routes: seq<Route>): (m: int)
    ensures m >= 0 && forall rt | rt in routes :: rt.order <= m
    ensures m == 0 || exists rt | rt in routes :: rt.order == m
  {
    if |routes| == 0 then 0
    else
      var init, rt := routes[..|routes| - 1], routes[|routes| - 1];
      assert routes == init + [rt];
      if rt.order > MaxOrder(init) then rt.order else MaxOrder(init)
  }

  method NextOrder(routes: seq<Route>) returns (order: int)
    ensures order == MaxOrder(routes) + 10
    ensures forall rt | rt in routes :: rt.order < order
  {
    var max := 0;
    for i := 0 to |routes|
      invariant max == MaxOrder(routes[..i])
    {
      Prefixes(routes, i);
      if routes[i].order > max { max := routes[i].order; }
    }
    assert routes[..|routes|] == routes;
    order := max + 10;
  }

  // ---------------------------------------------------------------- in-place filtering

  function Without(list: seq<string>, v: string): (r: seq<string>)
    ensures |r| <= |list|
    ensures forall x :: x in r <==> x in list && x != v
  {
    if |list| == 0 then []
    else
      var init := list[..|list| - 1];
      assert list == init + [list[|list| - 1]];
      if list[|list| - 1] != v then Without(init, v) + [list[|list| - 1]] else Without(init, v)
  }

  /** removeString filters into the slice's own array; the result is its first n cells. */
  method RemoveString(list: array<string>, v: string) returns (n: nat)
    modifies list
    ensures n <= list.Length && list[..n] == Without(old(list[..]), v)
  {
    n := 0;
    ghost var was := list[..];
    for i := 0 to list.Length
      invariant n <= i && list[..n] == Without(was[..i], v)
      invariant list[i..] == was[i..]
    {
      Prefixes(was, i);
      var s := list[i];
      assert s == list[i..][0] == was[i..][0] == was[i];
      if s != v {
        list[n] := s;
        n := n + 1;
        assert list[..n] == list[..n - 1] + [s];
      }
      assert list[i + 1..] == was[i + 1..];
    }
    assert was[..list.Length] == was;
  }
}
