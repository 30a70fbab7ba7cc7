/** The template catalog: shipped files merged with a user overlay
    (internal/templates/templates.go:77-405). */
module Templates {
  import opened Prelude
  import opened Text
  import opened Sorting
  import opened Model
  import Generator

  datatype Origin = Unset | Builtin | Custom

  datatype Template = Template(
    id: string, name: string, description: string, listSource: string, conditions: seq<Condition>,
    typicalTarget: string, providers: seq<string>, origin: Origin, overridden: bool)

  /** A directory entry: a YAML file by its stem, readable as a template or not, or anything else. */
  datatype Body = Parsed(tpl: Template) | Broken

  datatype DirEntry = Yaml(stem: string, body: Body) | Other

  datatype Catalog = Catalog(templates: seq<Template>, warnings: seq<string>)

  // ---------------------------------------------------------------- one file

  predicate ValidId(id: string) {
    0 < |id| <= 64 && forall i | 0 <= i < |id| :: 'a' <= id[i] <= 'z' || '0' <= id[i] <= '9' || id[i] == '-'
  }

  /** checkTemplate; payloads are the providers that have a payload file. */
  predicate Checks(payloads: set<string>, t: Template) {
    && t.name != ""
    && (forall c | c in t.conditions :: !c.kind.UnknownCond? && c.value != "")
    && t.typicalTarget in ["direct", "reject", "server", "group", ""]
    && (forall p | p in t.providers :: Generator.ValidProvider(p) && p in payloads)
  }

  /** The template a file contributes; a missing id defaults to the file stem. Origin and
      Overridden are not part of the file. */
  function Accept(payloads: set<string>, e: DirEntry): (r: Option<Template>)
    ensures r.Some? ==> e.Yaml? && r.value.id == e.stem && r.value.origin == Unset && !r.value.overridden
  {
    if e.Other? || e.body.Broken? then None
    else
      var id := if e.body.tpl.id == "" then e.stem else e.body.tpl.id;
      var t := e.body.tpl.(id := id, origin := Unset, overridden := false);
      if t.id == e.stem && Checks(payloads, t) then Some(t) else None
  }

  function TemplateKey(t: Template): Key {
    Key(0, t.id)
  }

  /** Catalog.Get: linear search. */
  method Get(templates: seq<Template>, id: string) returns (r: Option<Template>)
    ensures r == Lookup(templates, id)
  {
    for i := 0 to |templates|
      invariant Lookup(templates[i..], id) == Lookup(templates, id)
    {
      assert templates[i..][1..] == templates[i + 1..];
      if templates[i].id == id { return Some(templates[i]); }
    }
    return None;
  }

  function Lookup(templates: seq<Template>, id: string): Option<Template> {
    if |templates| == 0 then None
    else if templates[0].id == id then Some(templates[0])
    else Lookup(templates[1..], id)
  }

  // ---------------------------------------------------------------- what a catalog should be

  /** A directory holds at most one file of a name. */
  ghost predicate Directory(es: seq<DirEntry>) {
    forall i, j | 0 <= i < j < |es| && es[i].Yaml? && es[j].Yaml? :: es[i].stem != es[j].stem
  }

  function Contributed(payloads: set<string>, es: seq<DirEntry>, id: string): Option<Template> {
    if |es| == 0 then None
    else
      var e := es[|es| - 1];
      if e.Yaml? && e.stem == id && Accept(payloads, e).Some? then Accept(payloads, e)
      else Contributed(payloads, es[..|es| - 1], id)
  }

  ghost predicate AllGood(payloads: set<string>, es: seq<DirEntry>) {
    forall e | e in es && e.Yaml? :: Accept(payloads, e).Some?
  }

  function Marked(t: Option<Template>, origin: Origin): Option<Template> {
    if t.Some? then Some(t.value.(origin := origin)) else None
  }

  /** The overlay's valid entry if there is one, else the shipped entry. */
  function Expected(shipped: Option<Template>, overlay: Option<Template>): Option<Template> {
    match overlay
    case Some(t) => Some(t.(origin := Custom, overridden := shipped.Some?))
    case None => Marked(shipped, Builtin)
  }

  ghost predicate Increasing(ts: seq<Template>) {
    forall i, j | 0 <= i < j < |ts| :: StrLess(ts[i].id, ts[j].id)
  }

  /** Stems of the overlay files that are skipped, in directory order. */
  function Skipped(payloads: set<string>, es: seq<DirEntry>): seq<string> {
    if |es| == 0 then []
    else
      var prev, e := Skipped(payloads, es[..|es| - 1]), es[|es| - 1];
      if e.Yaml? && Accept(payloads, e).None? then prev + [e.stem] else prev
  }

  // ---------------------------------------------------------------- sorted lists and look-up

  ghost predicate DistinctIds(ts: seq<Template>) {
    forall i, j | 0 <= i < j < |ts| :: ts[i].id != ts[j].id
  }

  lemma {:induction false} LookupIs(ts: seq<Template>, id: string)
    requires DistinctIds(ts)
    ensures forall i | 0 <= i < |ts| && ts[i].id == id :: Lookup(ts, id) == Some(ts[i])
    ensures Lookup(ts, id).Some? ==> Lookup(ts, id).value in ts && Lookup(ts, id).value.id == id
    ensures (forall i | 0 <= i < |ts| :: ts[i].id != id) ==> Lookup(ts, id) == None
  {
    if |ts| > 0 {
      var rest := ts[1..];
      forall i, j | 0 <= i < j < |rest| ensures rest[i].id != rest[j].id {
        assert ts[i + 1] == rest[i] && ts[j + 1] == rest[j];
      }
      LookupIs(rest, id);
      forall i | 0 <= i < |ts| && ts[i].id == id ensures Lookup(ts, id) == Some(ts[i]) {
        if i > 0 { assert rest[i - 1] == ts[i]; }
      }
      if forall i | 0 <= i < |ts| :: ts[i].id != id {
        forall i | 0 <= i < |rest| ensures rest[i].id != id { assert ts[i + 1] == rest[i]; }
      }
    }
  }

  /** Sorting by ID keeps IDs distinct, makes them increasing and changes no look-up. */
  lemma SortedCatalog(ts: seq<Template>)
    requires DistinctIds(ts)
    ensures Increasing(SortByKey(TemplateKey, ts)) && DistinctIds(SortByKey(TemplateKey, ts))
    ensures forall id :: Lookup(SortByKey(TemplateKey, ts), id) == Lookup(ts, id)
  {
    hide SortByKey, Lookup;
    var sorted := SortByKey(TemplateKey, ts);
    SortSorted(TemplateKey, ts);
    forall x ensures x in sorted <==> x in ts { assert x in multiset(sorted) <==> x in multiset(ts); }
    forall i, j | 0 <= i < j < |sorted| ensures StrLess(sorted[i].id, sorted[j].id) && sorted[i].id != sorted[j].id {
      KeyOrder(TemplateKey(sorted[i]), TemplateKey(sorted[j]), TemplateKey(sorted[i]));
      if sorted[i].id == sorted[j].id {
        SameId(ts, sorted[i], sorted[j]);
        TwiceInMultiset(sorted, i, j);
        CountDistinct(ts, sorted[i]);
      }
    }
    forall id ensures Lookup(sorted, id) == Lookup(ts, id) { SameLookup(ts, sorted, id); }
  }

  lemma SameId(ts: seq<Template>, a: Template, b: Template)
    requires DistinctIds(ts) && a in ts && b in ts && a.id == b.id
    ensures a == b
  {
    var i :| 0 <= i < |ts| && ts[i] == a;
    var j :| 0 <= j < |ts| && ts[j] == b;
  }

  lemma SameLookup(ts: seq<Template>, us: seq<Template>, id: string)
    requires DistinctIds(ts) && DistinctIds(us) && forall x :: x in us <==> x in ts
    ensures Lookup(us, id) == Lookup(ts, id)
  {
    hide Lookup;
    LookupIs(ts, id);
    LookupIs(us, id);
    if i :| 0 <= i < |ts| && ts[i].id == id {
      assert ts[i] in us;
      var j :| 0 <= j < |us| && us[j] == ts[i];
    } else {
      forall j | 0 <= j < |us| ensures us[j].id != id { assert us[j] in ts; }
    }
  }

  // ---------------------------------------------------------------- the loaders

  lemma ContributedStep(payloads: set<string>, es: seq<DirEntry>, i: nat, id: string)
    requires i < |es|
    ensures Contributed(payloads, es[..i + 1], id)
         == if es[i].Yaml? && es[i].stem == id && Accept(payloads, es[i]).Some? then Accept(payloads, es[i])
            else Contributed(payloads, es[..i], id)
  {
    Prefixes(es, i);
  }

  /** Nothing contributed under a stem before its file comes up. */
  lemma {:induction false} NotYet(payloads: set<string>, es: seq<DirEntry>, id: string)
    requires forall e | e in es && e.Yaml? :: e.stem != id
    ensures Contributed(payloads, es, id) == None
  {
    if |es| > 0 {
      assert es == es[..|es| - 1] + [es[|es| - 1]];
      NotYet(payloads, es[..|es| - 1], id);
    }
  }

  lemma StemIsNew(payloads: set<string>, es: seq<DirEntry>, i: nat)
    requires Directory(es) && i < |es| && es[i].Yaml?
    ensures Contributed(payloads, es[..i], es[i].stem) == None
  {
    NotYet(payloads, es[..i], es[i].stem);
  }

  /** Load: strict, every YAML file must be a template. */
  method Load(es: seq<DirEntry>, payloads: set<string>) returns (r: Option<seq<Template>>)
    requires Directory(es)
    ensures r.Some? <==> AllGood(payloads, es) && exists e :: e in es && e.Yaml?
    ensures r.Some? ==> Increasing(r.value) && DistinctIds(r.value)
    ensures r.Some? ==> forall id :: Lookup(r.value, id) == Marked(Contributed(payloads, es, id), Builtin)
  {
    hide Contributed, Lookup, Accept;
    var ts: seq<Template> := [];
    assert Holding(payloads, es[..0], Builtin, ts) by { HoldingNothing(payloads, es[..0], Builtin); }
    for i := 0 to |es|
      invariant AllGood(payloads, es[..i])
      invariant Holding(payloads, es[..i], Builtin, ts)
      invariant |ts| > 0 <==> exists e :: e in es[..i] && e.Yaml?
    {
      Prefixes(es, i);
      var e := es[i];
      if e.Other? {
        HoldingSkips(payloads, es, i, Builtin, ts);
        continue;
      }
      var t := Accept(payloads, e);
      if t.None? {
        assert e in es;
        return None;
      }
      HoldingGrows(payloads, es, i, Builtin, ts);
      ts := ts + [t.value.(origin := Builtin)];
    }
    assert es[..|es|] == es;
    if |ts| == 0 { return None; }
    SortedCatalog(ts);
    forall id ensures Lookup(ts, id) == Marked(Contributed(payloads, es, id), Builtin) {
      HoldingLookup(payloads, es, Builtin, ts, id);
    }
    return Some(SortByKey(TemplateKey, ts));
  }

  /** The list holds exactly what the entries contribute. */
  ghost predicate Holding(payloads: set<string>, es: seq<DirEntry>, origin: Origin, ts: seq<Template>) {
    && DistinctIds(ts)
    && (forall t | t in ts :: Marked(Contributed(payloads, es, t.id), origin) == Some(t))
    && (forall id :: Contributed(payloads, es, id).Some? ==> exists t | t in ts :: t.id == id)
  }

  lemma HoldingNothing(payloads: set<string>, es: seq<DirEntry>, origin: Origin)
    requires |es| == 0
    ensures Holding(payloads, es, origin, [])
  {
  }

  lemma HoldingSkips(payloads: set<string>, es: seq<DirEntry>, i: nat, origin: Origin, ts: seq<Template>)
    requires i < |es| && Holding(payloads, es[..i], origin, ts)
    requires es[i].Other? || Accept(payloads, es[i]).None?
    ensures Holding(payloads, es[..i + 1], origin, ts)
  {
    hide Contributed, Accept;
    var a, b := es[..i], es[..i + 1];
    forall id ensures Contributed(payloads, b, id) == Contributed(payloads, a, id) {
      ContributedStep(payloads, es, i, id);
    }
  }

  lemma HoldingGrows(payloads: set<string>, es: seq<DirEntry>, i: nat, origin: Origin, ts: seq<Template>)
    requires Directory(es) && i < |es| && Holding(payloads, es[..i], origin, ts)
    requires Accept(payloads, es[i]).Some?
    ensures Holding(payloads, es[..i + 1], origin, ts + [Accept(payloads, es[i]).value.(origin := origin)])
  {
    hide Contributed, Accept;
    var t := Accept(payloads, es[i]).value.(origin := origin);
    StemIsNew(payloads, es, i);
    forall x | x in ts ensures x.id != t.id && Marked(Contributed(payloads, es[..i + 1], x.id), origin) == Some(x) {
      ContributedStep(payloads, es, i, x.id);
    }
    ContributedStep(payloads, es, i, t.id);
    var longer := es[..i + 1];
    forall id | Contributed(payloads, longer, id).Some? ensures exists x | x in ts + [t] :: x.id == id {
      ContributedStep(payloads, es, i, id);
      if id == t.id {
        assert t in ts + [t];
      } else {
        var x :| x in ts && x.id == id;
        assert x in ts + [t];
      }
    }
  }

  lemma HoldingLookup(payloads: set<string>, es: seq<DirEntry>, origin: Origin, ts: seq<Template>, id: string)
    requires Holding(payloads, es, origin, ts)
    ensures Lookup(ts, id) == Marked(Contributed(payloads, es, id), origin)
  {
    hide Contributed, Lookup;
    LookupIs(ts, id);
    if Contributed(payloads, es, id).Some? {
      var t :| t in ts && t.id == id;
      var i :| 0 <= i < |ts| && ts[i] == t;
    }
  }

  datatype OverlayDir = NotConfigured | Missing | Unreadable | Listing(entries: seq<DirEntry>)

  function Entries(o: OverlayDir): seq<DirEntry> {
    if o.Listing? then o.entries else []
  }

  /** The list built so far and its index: every ID maps to its position, and each look-up gives
      the overlay's entry if one came up, else the shipped one. */
  ghost predicate Merging(payloads: set<string>, es: seq<DirEntry>, shipped: seq<Template>,
                          ts: seq<Template>, byId: map<string, nat>) {
    && (forall k | 0 <= k < |ts| :: ts[k].id in byId && byId[ts[k].id] == k)
    && (forall id | id in byId :: byId[id] < |ts| && ts[byId[id]].id == id)
    && (forall id :: Shows(payloads, es, shipped, ts, id))
  }

  ghost predicate Shows(payloads: set<string>, es: seq<DirEntry>, shipped: seq<Template>, ts: seq<Template>,
      id: string) {
    Lookup(ts, id) == ExpectedIn(payloads, es, shipped, id)
  }

  ghost function ExpectedIn(payloads: set<string>, es: seq<DirEntry>, shipped: seq<Template>,
      id: string): Option<Template> {
    Expected(Lookup(shipped, id), Contributed(payloads, es, id))
  }

  lemma LookupReplace(ts: seq<Template>, i: nat, t: Template, id: string)
    requires DistinctIds(ts) && i < |ts| && ts[i].id == t.id
    ensures Lookup(ts[i := t], id) == if id == t.id then Some(t) else Lookup(ts, id)
  {
    hide Lookup;
    var us := ts[i := t];
    LookupIs(ts, id);
    LookupIs(us, id);
    if id == t.id {
      assert us[i] == t;
    } else if j :| 0 <= j < |ts| && ts[j].id == id {
      assert us[j] == ts[j];
    }
  }

  lemma {:induction false} LookupAppend(ts: seq<Template>, t: Template, id: string)
    ensures Lookup(ts + [t], id)
         == if Lookup(ts, id).Some? then Lookup(ts, id) else if t.id == id then Some(t) else None
  {
    if |ts| > 0 {
      assert (ts + [t])[1..] == ts[1..] + [t];
      LookupAppend(ts[1..], t, id);
    }
  }

  lemma MergingSkips(payloads: set<string>, es: seq<DirEntry>, i: nat, shipped: seq<Template>, ts: seq<Template>,
      byId: map<string, nat>)
    requires i < |es| && Merging(payloads, es[..i], shipped, ts, byId)
    requires es[i].Other? || Accept(payloads, es[i]).None?
    ensures Merging(payloads, es[..i + 1], shipped, ts, byId)
  {
    hide Contributed, Accept, Lookup, Expected;
    var longer := es[..i + 1];
    forall id ensures Shows(payloads, longer, shipped, ts, id) {
      ContributedStep(payloads, es, i, id);
      assert Shows(payloads, es[..i], shipped, ts, id);
    }
  }

  lemma MergingReplaces(payloads: set<string>, es: seq<DirEntry>, i: nat, shipped: seq<Template>, ts: seq<Template>,
      byId: map<string, nat>)
    requires Directory(es) && i < |es| && Merging(payloads, es[..i], shipped, ts, byId)
    requires Accept(payloads, es[i]).Some? && es[i].stem in byId
    ensures byId[es[i].stem] < |ts|
    ensures Merging(payloads, es[..i + 1], shipped,
                    ts[byId[es[i].stem] := Accept(payloads, es[i]).value.(origin := Custom, overridden := true)], byId)
  {
    hide Contributed, Accept, Lookup;
    var at := byId[es[i].stem];
    var t := Accept(payloads, es[i]).value.(origin := Custom, overridden := true);
    StemIsNew(payloads, es, i);
    LookupIs(ts, es[i].stem);
    assert Shows(payloads, es[..i], shipped, ts, es[i].stem);
    var longer, next := es[..i + 1], ts[at := t];
    forall id ensures Shows(payloads, longer, shipped, next, id) {
      ContributedStep(payloads, es, i, id);
      LookupReplace(ts, at, t, id);
      assert Shows(payloads, es[..i], shipped, ts, id);
    }
  }

  lemma MergingAppends(payloads: set<string>, es: seq<DirEntry>, i: nat, shipped: seq<Template>, ts: seq<Template>,
      byId: map<string, nat>)
    requires Directory(es) && i < |es| && Merging(payloads, es[..i], shipped, ts, byId)
    requires Accept(payloads, es[i]).Some? && es[i].stem !in byId
    ensures Merging(payloads, es[..i + 1], shipped,
                    ts + [Accept(payloads, es[i]).value.(origin := Custom)], byId[es[i].stem := |ts|])
  {
    hide Contributed, Accept, Lookup;
    var t := Accept(payloads, es[i]).value.(origin := Custom);
    StemIsNew(payloads, es, i);
    LookupIs(ts, es[i].stem);
    assert Shows(payloads, es[..i], shipped, ts, es[i].stem);
    var longer, next := es[..i + 1], ts + [t];
    forall id ensures Shows(payloads, longer, shipped, next, id) {
      ContributedStep(payloads, es, i, id);
      LookupAppend(ts, t, id);
      assert Shows(payloads, es[..i], shipped, ts, id);
    }
  }

  method IndexById(ts: seq<Template>) returns (byId: map<string, nat>)
    requires DistinctIds(ts)
    ensures forall k | 0 <= k < |ts| :: ts[k].id in byId && byId[ts[k].id] == k
    ensures forall id | id in byId :: byId[id] < |ts| && ts[byId[id]].id == id
  {
    byId := map[];
    for i := 0 to |ts|
      invariant forall k | 0 <= k < i :: ts[k].id in byId && byId[ts[k].id] == k
      invariant forall id | id in byId :: byId[id] < i && ts[byId[id]].id == id
    {
      byId := byId[ts[i].id := i];
    }
  }

  /** The overlay loop: replace in place or append, skip broken files with a warning. */
  method ApplyOverlay(shipped: seq<Template>, es: seq<DirEntry>, payloads: set<string>)
    returns (ts: seq<Template>, warnings: seq<string>)
    requires Directory(es) && DistinctIds(shipped)
    requires forall id :: Lookup(shipped, id) == Marked(Lookup(shipped, id), Builtin)
    ensures DistinctIds(ts) && warnings == Skipped(payloads, es)
    ensures forall id :: Shows(payloads, es, shipped, ts, id)
  {
    var byId: map<string, nat> := IndexById(shipped);
    ts, warnings := shipped, [];
    assert es[..0] == [];
    for i := 0 to |es|
      invariant Merging(payloads, es[..i], shipped, ts, byId)
      invariant warnings == Skipped(payloads, es[..i])
    {
      hide Merging, Accept, Lookup;
      var e := es[i];
      Prefixes(es, i);
      if e.Other? {
        MergingSkips(payloads, es, i, shipped, ts, byId);
        continue;
      }
      var t := Accept(payloads, e);
      if t.None? {
        MergingSkips(payloads, es, i, shipped, ts, byId);
        warnings := warnings + [e.stem];
      } else if e.stem in byId {
        MergingReplaces(payloads, es, i, shipped, ts, byId);
        ts := ts[byId[e.stem] := t.value.(origin := Custom, overridden := true)];
      } else {
        MergingAppends(payloads, es, i, shipped, ts, byId);
        byId := byId[e.stem := |ts|];
        ts := ts + [t.value.(origin := Custom)];
      }
    }
    assert es[..|es|] == es;
  }

  /** The merged catalog: sorted with distinct IDs, look-up prefers a valid overlay entry, and
      each broken overlay file adds one warning and nothing else. */
  ghost predicate IsCatalog(cat: Catalog, shippedFiles: seq<DirEntry>, overlayFiles: seq<DirEntry>,
                            payloads: set<string>, allPayloads: set<string>) {
    && Increasing(cat.templates) && DistinctIds(cat.templates)
    && cat.warnings == Skipped(allPayloads, overlayFiles)
    && forall id :: Lookup(cat.templates, id)
                    == Expected(Contributed(payloads, shippedFiles, id), Contributed(allPayloads, overlayFiles, id))
  }

  method LoadMerged(shippedFiles: seq<DirEntry>, overlay: OverlayDir, payloads: set<string>,
      overlayPayloads: set<string>)
    returns (r: Option<Catalog>)
    requires Directory(shippedFiles) && Directory(Entries(overlay))
    ensures r.Some?
        <==> AllGood(payloads, shippedFiles)
             && (exists e :: e in shippedFiles && e.Yaml?)
             && !overlay.Unreadable?
    ensures r.Some? ==> IsCatalog(r.value, shippedFiles, Entries(overlay), payloads, payloads + overlayPayloads)
  {
    hide Contributed, Lookup, Accept, Skipped;
    var loaded := Load(shippedFiles, payloads);
    if loaded.None? || overlay.Unreadable? { return None; }
    var shipped := loaded.value;
    var es := Entries(overlay);
    var ts, warnings := ApplyOverlay(shipped, es, payloads + overlayPayloads);
    SortedCatalog(ts);
    forall id ensures Lookup(SortByKey(TemplateKey, ts), id)
                   == Expected(Contributed(payloads, shippedFiles, id), Contributed(payloads + overlayPayloads, es, id))
    {
      assert Shows(payloads + overlayPayloads, es, shipped, ts, id);
    }
    return Some(Catalog(SortByKey(TemplateKey, ts), warnings));
  }

  // ---------------------------------------------------------------- what follows

  lemma {:induction false} IncreasingUnique(a: seq<Template>, b: seq<Template>)
    requires Increasing(a) && Increasing(b) && DistinctIds(a) && DistinctIds(b)
    requires forall id :: Lookup(a, id) == Lookup(b, id)
    ensures a == b
  {
    hide Lookup;
    SameElements(a, b);
    forall x ensures multiset(a)[x] == multiset(b)[x] {
      CountDistinct(a, x);
      CountDistinct(b, x);
      assert x in multiset(a) <==> x in a;
      assert x in multiset(b) <==> x in b;
    }
    assert multiset(a) == multiset(b);
    IncreasingSorted(a);
    IncreasingSorted(b);
    forall x, y | x in a && y in a && TemplateKey(x) == TemplateKey(y) ensures x == y { SameId(a, x, y); }
    SortedUnique(TemplateKey, a, b);
  }

  lemma SameElements(a: seq<Template>, b: seq<Template>)
    requires DistinctIds(a) && DistinctIds(b)
    requires forall id :: Lookup(a, id) == Lookup(b, id)
    ensures forall x :: x in a <==> x in b
  {
    hide Lookup;
    forall x ensures x in a <==> x in b {
      LookupIs(a, x.id);
      LookupIs(b, x.id);
      if x in a { var i :| 0 <= i < |a| && a[i] == x; }
      if x in b { var i :| 0 <= i < |b| && b[i] == x; }
    }
  }

  lemma IncreasingSorted(a: seq<Template>)
    requires Increasing(a)
    ensures Sorted(TemplateKey, a)
  {
    forall i, j | 0 <= i < j < |a| ensures !KeyLess(TemplateKey(a[j]), TemplateKey(a[i])) {
      KeyOrder(TemplateKey(a[i]), TemplateKey(a[j]), TemplateKey(a[i]));
    }
  }

  /** The contract of LoadMerged leaves no freedom: same files, same catalog, however the
      directories are listed. */
  lemma CatalogUnique(c: Catalog, d: Catalog, shipped1: seq<DirEntry>, overlay1: seq<DirEntry>,
                      shipped2: seq<DirEntry>, overlay2: seq<DirEntry>, payloads: set<string>, allPayloads: set<string>)
    requires IsCatalog(c, shipped1, overlay1, payloads, allPayloads)
    requires IsCatalog(d, shipped2, overlay2, payloads, allPayloads)
    requires forall id :: Contributed(payloads, shipped1, id) == Contributed(payloads, shipped2, id)
    requires forall id :: Contributed(allPayloads, overlay1, id) == Contributed(allPayloads, overlay2, id)
    ensures c.templates == d.templates
  {
    hide Lookup, Contributed;
    forall id ensures Lookup(c.templates, id) == Lookup(d.templates, id) { }
    IncreasingUnique(c.templates, d.templates);
  }

  // ---------------------------------------------------------------- writing and deleting overlay files

  type Files = map<string, Body>

  /** The listing of a directory shows each of its files once. */
  ghost predicate Lists(es: seq<DirEntry>, files: Files) {
    && Directory(es)
    && (forall e | e in es && e.Yaml? :: e.stem in files && files[e.stem] == e.body)
    && (forall stem | stem in files :: Yaml(stem, files[stem]) in es)
  }

  /** WriteOverlay: None when the id is no valid file stem. */
  function WriteOverlay(files: Files, t: Template): Option<Files> {
    if ValidId(t.id) then Some(files[t.id := Parsed(t.(origin := Unset, overridden := false))]) else None
  }

  /** DeleteOverlay: None for an invalid id or when there is no such file. */
  function DeleteOverlay(files: Files, id: string): Option<Files> {
    if ValidId(id) && id in files then Some(files - {id}) else None
  }

  lemma {:induction false} ContributedByFile(payloads: set<string>, es: seq<DirEntry>, files: Files, id: string)
    requires Lists(es, files)
    ensures Contributed(payloads, es, id) == if id in files then Accept(payloads, Yaml(id, files[id])) else None
  {
    hide Accept;
    ContributedFrom(payloads, es, id);
    if id in files {
      var i :| 0 <= i < |es| && es[i] == Yaml(id, files[id]);
    } else {
      NotYet(payloads, es, id);
    }
  }

  lemma {:induction false} ContributedFrom(payloads: set<string>, es: seq<DirEntry>, id: string)
    requires Directory(es)
    ensures forall i | 0 <= i < |es| && es[i].Yaml? && es[i].stem == id ::
      Contributed(payloads, es, id) == Accept(payloads, es[i])
  {
    hide Accept;
    if |es| > 0 {
      var init, e := es[..|es| - 1], es[|es| - 1];
      ContributedFrom(payloads, init, id);
      if e.Yaml? && e.stem == id { StemIsNew(payloads, es, |es| - 1); }
    }
  }

  ghost predicate SkipsStem(payloads: set<string>, es: seq<DirEntry>, stem: string) {
    exists e | e in es :: e.Yaml? && e.stem == stem && Accept(payloads, e).None?
  }

  lemma {:induction false} SkippedCount(payloads: set<string>, es: seq<DirEntry>, stem: string)
    requires Directory(es)
    ensures multiset(Skipped(payloads, es))[stem] == if SkipsStem(payloads, es, stem) then 1 else 0
  {
    if |es| > 0 {
      hide Accept;
      var init, e := es[..|es| - 1], es[|es| - 1];
      assert es == init + [e];
      SkippedCount(payloads, init, stem);
      if e.Yaml? && e.stem == stem {
        assert forall x | x in init && x.Yaml? :: x.stem != stem;
        assert e in es;
      }
    }
  }

  /** A broken file is warned about once, whatever the listing order. */
  lemma SkippedByFile(payloads: set<string>, es: seq<DirEntry>, files: Files, stem: string)
    requires Lists(es, files)
    ensures multiset(Skipped(payloads, es))[stem]
         == if stem in files && Accept(payloads, Yaml(stem, files[stem])).None? then 1 else 0
  {
    hide Accept, Skipped;
    SkippedCount(payloads, es, stem);
    if stem in files { assert Yaml(stem, files[stem]) in es; }
  }

  /** Saving a template that passes the checks makes it the one the catalog returns; it counts as
      an override exactly when a shipped template has the same id. */
  lemma WrittenIsServed(cat: Catalog, shippedFiles: seq<DirEntry>, es: seq<DirEntry>, files: Files, t: Template,
                        payloads: set<string>, allPayloads: set<string>)
    requires WriteOverlay(files, t).Some? && Lists(es, WriteOverlay(files, t).value)
    requires IsCatalog(cat, shippedFiles, es, payloads, allPayloads)
    requires Checks(allPayloads, t)
    ensures Lookup(cat.templates, t.id)
         == Some(t.(origin := Custom, overridden := Contributed(payloads, shippedFiles, t.id).Some?))
  {
    hide Lookup, Contributed;
    ContributedByFile(allPayloads, es, WriteOverlay(files, t).value, t.id);
  }

  /** Writing and then deleting an overlay file for an id that had none restores the catalog. */
  lemma WriteDeleteRestores(before: Catalog, after: Catalog, shippedFiles: seq<DirEntry>, files: Files, t: Template,
                            es1: seq<DirEntry>, es2: seq<DirEntry>, payloads: set<string>, allPayloads: set<string>)
    requires ValidId(t.id) && t.id !in files && Lists(es1, files)
    requires Lists(es2, DeleteOverlay(WriteOverlay(files, t).value, t.id).value)
    requires IsCatalog(before, shippedFiles, es1, payloads, allPayloads)
    requires IsCatalog(after, shippedFiles, es2, payloads, allPayloads)
    ensures after.templates == before.templates && multiset(after.warnings) == multiset(before.warnings)
  {
    hide Contributed, Skipped, Lookup, Accept;
    assert DeleteOverlay(WriteOverlay(files, t).value, t.id).value == files;
    forall id ensures Contributed(allPayloads, es1, id) == Contributed(allPayloads, es2, id) {
      ContributedByFile(allPayloads, es1, files, id);
      ContributedByFile(allPayloads, es2, files, id);
    }
    CatalogUnique(before, after, shippedFiles, es1, shippedFiles, es2, payloads, allPayloads);
    forall stem ensures multiset(after.warnings)[stem] == multiset(before.warnings)[stem] {
      SkippedByFile(allPayloads, es1, files, stem);
      SkippedByFile(allPayloads, es2, files, stem);
    }
  }

  /** Deleting an override brings the shipped template back. */
  lemma DeleteRestoresShipped(cat: Catalog, shippedFiles: seq<DirEntry>, files: Files, id: string, es: seq<DirEntry>,
                              payloads: set<string>, allPayloads: set<string>)
    requires DeleteOverlay(files, id).Some? && Lists(es, DeleteOverlay(files, id).value)
    requires IsCatalog(cat, shippedFiles, es, payloads, allPayloads)
    ensures Lookup(cat.templates, id) == Marked(Contributed(payloads, shippedFiles, id), Builtin)
  {
    hide Contributed, Lookup;
    ContributedByFile(allPayloads, es, DeleteOverlay(files, id).value, id);
  }
}
