/** uniqueName and its table of used names (internal/generator/generator.go:209, 583-592). */
module Names {
  import opened Text

  /** The name handed out for a display name after earlier requests. */
  function UniqueOf(earlier: seq<string>, display: string): string {
    var n := multiset(earlier)[display];
    if n == 0 then display else display + " #" + Itoa(n + 1)
  }

  function Assigned(displays: seq<string>): (names: seq<string>)
    ensures |names| == |displays|
  {
    if |displays| == 0 then []
    else
      var init := displays[..|displays| - 1];
      Assigned(init) + [UniqueOf(init, displays[|displays| - 1])]
  }

  class NameTable {
    var used: map<string, nat>
    ghost var issued: seq<string>

    ghost predicate Valid()
      reads this
    {
      forall d :: multiset(issued)[d] == if d in used then used[d] else 0
    }

    constructor ()
      ensures Valid() && issued == []
    {
      used, issued := map[], [];
    }

    method UniqueName(display: string) returns (name: string)
      requires Valid()
      modifies this
      ensures Valid() && issued == old(issued) + [display]
      ensures name == UniqueOf(old(issued), display)
    {
      var n := if display in used then used[display] else 0;
      used := used[display := n + 1];
      issued := issued + [display];
      name := if n == 0 then display else display + " #" + Itoa(n + 1);
    }
  }

  // ---------------------------------------------------------------- when names are unique

  /** Some display name reads like the k-th repetition of another one that repeats that often. */
  ghost predicate Clash(displays: seq<string>) {
    exists x: string, k: nat | 2 <= k <= multiset(displays)[x] :: x + " #" + Itoa(k) in displays
  }

  lemma {:induction false} AssignedAt(displays: seq<string>, i: nat)
    requires i < |displays|
    ensures Assigned(displays)[i] == UniqueOf(displays[..i], displays[i])
  {
    var init := displays[..|displays| - 1];
    if i < |init| {
      AssignedAt(init, i);
      assert init[..i] == displays[..i];
    }
  }

  lemma {:induction false} AssignedPrefix(a: seq<string>, b: seq<string>)
    ensures Assigned(a + b)[..|a|] == Assigned(a)
  {
    forall i | 0 <= i < |a| ensures Assigned(a + b)[i] == Assigned(a)[i] {
      AssignedAt(a + b, i);
      AssignedAt(a, i);
      assert (a + b)[..i] == a[..i];
    }
  }

  /** A repetition count is reached at some position. */
  lemma {:induction false} Occurrence(s: seq<string>, x: string, k: nat) returns (i: nat)
    requires 1 <= k <= multiset(s)[x]
    ensures i < |s| && s[i] == x && multiset(s[..i])[x] == k - 1
  {
    var init := s[..|s| - 1];
    assert s == init + [s[|s| - 1]];
    if multiset(init)[x] >= k {
      i := Occurrence(init, x, k);
      assert init[..i] == s[..i];
    } else {
      i := |s| - 1;
    }
  }

  lemma CountMonotone(s: seq<string>, x: string, i: nat, j: nat)
    requires i < j <= |s| && s[i] == x
    ensures multiset(s[..i])[x] + 1 <= multiset(s[..j])[x] <= multiset(s)[x]
  {
    assert s[..j] == s[..i] + [x] + s[i + 1..j];
    assert s == s[..j] + s[j..];
  }

  ghost predicate Distinct<T>(s: seq<T>) {
    forall i, j | 0 <= i < j < |s| :: s[i] != s[j]
  }

  /** Two positions get the same name only through a clash. */
  lemma SameNameClash(ds: seq<string>, i: nat, j: nat)
    requires i < j < |ds|
    requires Assigned(ds)[i] == Assigned(ds)[j]
    ensures Clash(ds)
  {
    AssignedAt(ds, i);
    AssignedAt(ds, j);
    var x, y := ds[i], ds[j];
    var m, n := multiset(ds[..i])[x], multiset(ds[..j])[y];
    CountMonotone(ds, x, i, |ds|);
    CountMonotone(ds, y, j, |ds|);
    CountMonotone(ds, x, i, j);
    if m > 0 && n > 0 {
      SuffixSplit(x, m + 1, y, n + 1);
      assert false;
    } else if m > 0 {
      assert x + " #" + Itoa(m + 1) in ds;
    } else {
      assert y + " #" + Itoa(n + 1) in ds;
    }
  }

  lemma ClashSameName(ds: seq<string>, x: string, k: nat)
    requires 2 <= k <= multiset(ds)[x]
    requires x + " #" + Itoa(k) in ds
    ensures !Distinct(Assigned(ds))
  {
    var d := x + " #" + Itoa(k);
    var i := Occurrence(ds, x, k);
    AssignedAt(ds, i);
    var j := Occurrence(ds, d, 1);
    AssignedAt(ds, j);
    assert Assigned(ds)[i] == d == Assigned(ds)[j];
    assert i != j by { assert |d| > |x|; }
  }

  /** uniqueName keeps names apart exactly when no display name imitates a suffixed one. */
  lemma UniqueNamesIff(displays: seq<string>)
    ensures Distinct(Assigned(displays)) <==> !Clash(displays)
  {
    if Clash(displays) {
      var x: string, k: nat :| 2 <= k <= multiset(displays)[x] && x + " #" + Itoa(k) in displays;
      ClashSameName(displays, x, k);
    } else {
      forall i, j | 0 <= i < j < |displays| ensures Assigned(displays)[i] != Assigned(displays)[j] {
        if Assigned(displays)[i] == Assigned(displays)[j] { SameNameClash(displays, i, j); }
      }
    }
  }

  /** The smallest clash: two groups "N" and one group "N #2". */
  lemma ThreeGroupClash()
    ensures !Distinct(Assigned(["N", "N", "N #2"]))
  {
    assert Itoa(2) == "2" && "N" + " #" + "2" == "N #2";
    ClashSameName(["N", "N", "N #2"], "N", 2);
  }
}
