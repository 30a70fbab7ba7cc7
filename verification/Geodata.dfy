/** The geosite.dat tag scanner (internal/geodata/geodata.go:276-326). */
module Geodata {
  import opened Prelude

  type byte = b: int | 0 <= b < 256

  const TAG_FIELD: byte := 0x0a

  /** Go's int64 value of a sum of shifted groups: the low 64 bits, read as signed. */
  function ToInt64(x: int): int {
    var low := x % 0x1_0000_0000_0000_0000;
    if low < 0x8000_0000_0000_0000 then low else low - 0x1_0000_0000_0000_0000
  }

  // ---------------------------------------------------------------- varints

  datatype Varint = Varint(value: int, pos: nat, ok: bool)

  /** The rest of a varint at pos, with acc the sum of the groups below shift. The groups do
      not overlap, so or-ing them in is adding them. */
  function VarintFrom(data: seq<byte>, pos: nat, acc: nat, shift: nat): Varint
    decreases |data| - pos
  {
    if pos >= |data| || shift > 63 then Varint(0, pos, false)
    else
      var acc' := acc + (data[pos] % 128) * Pow2(shift);
      if data[pos] < 128 then Varint(ToInt64(acc'), pos + 1, true)
      else VarintFrom(data, pos + 1, acc', shift + 7)
  }

  method ReadVarint(data: seq<byte>, start: nat) returns (value: int, pos: nat, ok: bool)
    ensures Varint(value, pos, ok) == VarintFrom(data, start, 0, 0)
    ensures ok ==> start < pos <= |data| && pos <= start + 10
  {
    pos := start;
    var val, shift := 0, 0;
    while true
      invariant start <= pos && shift == 7 * (pos - start) && val >= 0
      invariant VarintFrom(data, pos, val, shift) == VarintFrom(data, start, 0, 0)
      decreases |data| - pos
    {
      if pos >= |data| || shift > 63 { return 0, pos, false; }
      var b := data[pos];
      pos := pos + 1;
      val := val + (b % 128) * Pow2(shift);
      if b < 128 { return ToInt64(val), pos, true; }
      shift := shift + 7;
    }
  }

  /** Base 128 varints, as the Protocol Buffers Encoding guide defines them. */
  function Encode(v: nat): (r: seq<byte>)
    ensures |r| >= 1
  {
    if v < 128 then [v] else [v % 128 + 128] + Encode(v / 128)
  }

  lemma {:induction false} EncodeLength(v: nat, groups: nat)
    requires groups >= 1 && v < Pow2(7 * groups)
    ensures |Encode(v)| <= groups
  {
    if v >= 128 {
      Pow2Split(7 * (groups - 1), 7);
      assert Pow2(7) == 128;
      if groups == 1 { assert false; }
      EncodeLength(v / 128, groups - 1);
    }
  }

  lemma {:induction false} Pow2Split(a: nat, b: nat)
    ensures Pow2(a + b) == Pow2(a) * Pow2(b)
  {
    if a > 0 { Pow2Split(a - 1, b); }
  }

  /** Decoding picks up an encoding wherever it stands, and adds it at the current shift. */
  lemma {:induction false} VarintInverts(before: seq<byte>, v: nat, after: seq<byte>, acc: nat, shift: nat)
    requires shift + 7 * (|Encode(v)| - 1) <= 63
    ensures VarintFrom(before + Encode(v) + after, |before|, acc, shift)
         == Varint(ToInt64(acc + v * Pow2(shift)), |before| + |Encode(v)|, true)
    decreases v
  {
    var data := before + Encode(v) + after;
    EncodeStep(v);
    hide Encode, VarintFrom, Pow2, ToInt64;
    assert data[|before|] == Encode(v)[0];
    VarintStep(data, |before|, acc, shift);
    if v >= 128 {
      var head := Encode(v)[0];
      assert data == (before + [head]) + Encode(v / 128) + after;
      VarintInverts(before + [head], v / 128, after, acc + (v % 128) * Pow2(shift), shift + 7);
      Pow2Split(shift, 7);
      Pow2Of7();
      GroupSum(v, Pow2(shift));
    }
  }

  lemma EncodeStep(v: nat)
    ensures v < 128 ==> Encode(v) == [v]
    ensures v >= 128 ==> Encode(v) == [v % 128 + 128] + Encode(v / 128)
  {
  }

  lemma VarintStep(data: seq<byte>, pos: nat, acc: nat, shift: nat)
    requires pos < |data| && shift <= 63
    ensures var sum := acc + (data[pos] % 128) * Pow2(shift);
      VarintFrom(data, pos, acc, shift)
        == if data[pos] < 128 then Varint(ToInt64(sum), pos + 1, true) else VarintFrom(data, pos + 1, sum, shift + 7)
  {
  }

  lemma GroupSum(v: nat, p: nat)
    ensures (v % 128) * p + (v / 128) * (p * 128) == v * p
  {
    assert v == (v / 128) * 128 + v % 128;
    assert (v / 128) * (p * 128) == ((v / 128) * 128) * p;
    assert v * p == ((v / 128) * 128 + v % 128) * p;
  }

  /** readVarint undoes the encoding of every value below 2^63, at any position. */
  lemma ReadsBack(before: seq<byte>, v: nat, after: seq<byte>)
    requires v < 0x8000_0000_0000_0000
    ensures VarintFrom(before + Encode(v) + after, |before|, 0, 0) == Varint(v, |before| + |Encode(v)|, true)
  {
    assert Pow2(0) == 1;
    hide Pow2, Encode, VarintFrom, ToInt64;
    Pow2Of63();
    EncodeLength(v, 9);
    VarintInverts(before, v, after, 0, 0);
    SmallInt64(v);
  }

  lemma SmallInt64(v: nat)
    requires v < 0x8000_0000_0000_0000
    ensures ToInt64(0 + v * 1) == v
  {
  }

  lemma Pow2Of7()
    ensures Pow2(7) == 128
  {
  }

  lemma Pow2Of63()
    ensures Pow2(63) == 0x8000_0000_0000_0000
  {
    hide Pow2;
    Pow2Of7();
    Pow2Split(7, 7);
    Pow2Split(7, 14);
    Pow2Split(21, 21);
    Pow2Split(21, 42);
  }

  // ---------------------------------------------------------------- the tag scan

  datatype Scan = Scan(tags: set<seq<byte>>, ok: bool)

  /** The tag of one record, if its first field is one. */
  function EntryTag(entry: seq<byte>): Option<seq<byte>> {
    if |entry| < 2 || entry[0] != TAG_FIELD then None
    else
      var v := VarintFrom(entry, 1, 0, 0);
      if !v.ok || v.value < 0 || v.pos + v.value > |entry| then None
      else Some(entry[v.pos..v.pos + v.value])
  }

  lemma {:induction false} VarintAdvances(data: seq<byte>, pos: nat, acc: nat, shift: nat)
    ensures VarintFrom(data, pos, acc, shift).pos >= pos
    ensures VarintFrom(data, pos, acc, shift).ok ==> pos < VarintFrom(data, pos, acc, shift).pos <= |data|
    decreases |data| - pos
  {
    if pos < |data| && shift <= 63 && data[pos] >= 128 {
      VarintAdvances(data, pos + 1, acc + (data[pos] % 128) * Pow2(shift), shift + 7);
    }
  }

  function Tagged(tag: Option<seq<byte>>): set<seq<byte>> {
    if tag.Some? then {tag.value} else {}
  }

  /** What the scan finds from pos on. */
  function ScanFrom(dat: seq<byte>, pos: nat): Scan
    decreases |dat| - pos
  {
    if pos >= |dat| then Scan({}, true)
    else if dat[pos] != TAG_FIELD then Scan({}, false)
    else
      var v := VarintFrom(dat, pos + 1, 0, 0);
      VarintAdvances(dat, pos + 1, 0, 0);
      if !v.ok || v.value <= 0 || v.pos + v.value > |dat| then Scan({}, false)
      else
        var rest := ScanFrom(dat, v.pos + v.value);
        Scan(Tagged(EntryTag(dat[v.pos..v.pos + v.value])) + rest.tags, rest.ok)
  }

  lemma ScanStops(dat: seq<byte>, pos: nat)
    requires pos >= |dat|
    ensures ScanFrom(dat, pos) == Scan({}, true)
  {
  }

  ghost predicate RecordAt(dat: seq<byte>, pos: nat, body: nat, end: nat) {
    && pos < |dat| && dat[pos] == TAG_FIELD
    && VarintFrom(dat, pos + 1, 0, 0) == Varint(end - body, body, true) && body < end <= |dat|
  }

  lemma ScanRecord(dat: seq<byte>, pos: nat, body: nat, end: nat)
    requires RecordAt(dat, pos, body, end)
    ensures ScanFrom(dat, pos)
        == Scan(Tagged(EntryTag(dat[body..end])) + ScanFrom(dat, end).tags, ScanFrom(dat, end).ok)
  {
    hide EntryTag, VarintFrom;
  }

  method ParseEntry(entry: seq<byte>) returns (tag: Option<seq<byte>>)
    ensures tag == EntryTag(entry)
  {
    if |entry| < 2 || entry[0] != TAG_FIELD { return None; }
    var tl, tp, ok := ReadVarint(entry, 1);
    if !ok || tl < 0 || tp + tl > |entry| { return None; }
    return Some(entry[tp..tp + tl]);
  }

  method ParseTags(dat: seq<byte>) returns (tags: set<seq<byte>>, ok: bool)
    ensures Scan(tags, ok) == ScanFrom(dat, 0)
  {
    hide EntryTag, VarintFrom;
    tags := {};
    var pos: nat := 0;
    while pos < |dat|
      invariant ScanFrom(dat, 0) == Scan(tags + ScanFrom(dat, pos).tags, ScanFrom(dat, pos).ok)
      decreases |dat| - pos
    {
      if dat[pos] != TAG_FIELD { return tags, false; }
      var ln, np, okv := ReadVarint(dat, pos + 1);
      if !okv || ln <= 0 || np + ln > |dat| { return tags, false; }
      ScanRecord(dat, pos, np, np + ln);
      var tag := ParseEntry(dat[np..np + ln]);
      if tag.Some? { tags := tags + {tag.value}; }
      pos := np + ln;
    }
    ScanStops(dat, pos);
    return tags, true;
  }

  // ---------------------------------------------------------------- well-formed streams

  /** A record: its tag field first, then anything. */
  datatype Site = Site(tag: seq<byte>, rest: seq<byte>)

  function Body(s: Site): seq<byte> {
    [TAG_FIELD] + Encode(|s.tag|) + s.tag + s.rest
  }

  function Stream(sites: seq<Site>): seq<byte> {
    if |sites| == 0 then [] else [TAG_FIELD] + Encode(|Body(sites[0])|) + Body(sites[0]) + Stream(sites[1..])
  }

  ghost predicate Sized(sites: seq<Site>) {
    forall s | s in sites :: |Body(s)| < 0x8000_0000
  }

  lemma BodyNonEmpty(s: Site)
    ensures |Body(s)| > 0
  {
  }

  lemma BodyTag(s: Site)
    requires |Body(s)| < 0x8000_0000
    ensures EntryTag(Body(s)) == Some(s.tag)
  {
    var head, len := [TAG_FIELD], Encode(|s.tag|);
    assert Body(s) == head + len + (s.tag + s.rest);
    ReadsBack(head, |s.tag|, s.tag + s.rest);
    var at := |head| + |len|;
    assert Body(s)[at..at + |s.tag|] == s.tag;
  }

  /** The first record of a stream, wherever the stream starts. */
  lemma FirstRecord(before: seq<byte>, s: Site, after: seq<byte>)
    requires |Body(s)| < 0x8000_0000
    ensures var dat := before + [TAG_FIELD] + Encode(|Body(s)|) + Body(s) + after;
      var end := |dat| - |after|;
      ScanFrom(dat, |before|) == Scan({s.tag} + ScanFrom(dat, end).tags, ScanFrom(dat, end).ok)
  {
    hide EntryTag, VarintFrom, Body, Encode, ScanFrom;
    var len := Encode(|Body(s)|);
    var dat := before + [TAG_FIELD] + len + Body(s) + after;
    var body, end := |before| + 1 + |len|, |dat| - |after|;
    assert dat == (before + [TAG_FIELD]) + len + (Body(s) + after);
    ReadsBack(before + [TAG_FIELD], |Body(s)|, Body(s) + after);
    assert dat[body..end] == Body(s);
    BodyTag(s);
    BodyNonEmpty(s);
    ScanRecord(dat, |before|, body, end);
  }

  ghost function Tags(sites: seq<Site>): set<seq<byte>> {
    set s | s in sites :: s.tag
  }

  lemma TagsStep(sites: seq<Site>)
    requires |sites| > 0
    ensures Tags(sites) == {sites[0].tag} + Tags(sites[1..])
  {
    assert sites == [sites[0]] + sites[1..];
  }

  /** Scanning over well-formed records yields their tags and goes on behind them: a clean end
      gives all tags with ok, a broken tail the tags so far with what the tail says. */
  lemma {:induction false} ScanStream(before: seq<byte>, sites: seq<Site>, tail: seq<byte>)
    requires Sized(sites)
    ensures var dat := before + Stream(sites) + tail; var behind := ScanFrom(dat, |before| + |Stream(sites)|);
      ScanFrom(dat, |before|) == Scan(Tags(sites) + behind.tags, behind.ok)
    decreases |sites|
  {
    hide ScanFrom, Body, Encode, Tags, Stream;
    StreamCons(sites);
    if |sites| == 0 {
      NoTags(sites);
    } else {
      var s, more := sites[0], sites[1..];
      var len, body, rest := Encode(|Body(s)|), Body(s), Stream(more);
      var head := [TAG_FIELD] + len + body;
      assert s in sites && forall x | x in more :: x in sites;
      ScanStream(before + head, more, tail);
      Regroup(before, len, body, rest, tail);
      FirstRecord(before, s, rest + tail);
      TagsStep(sites);
    }
  }

  lemma StreamCons(sites: seq<Site>)
    ensures |sites| == 0 ==> Stream(sites) == []
    ensures |sites| > 0 ==>
      Stream(sites) == [TAG_FIELD] + Encode(|Body(sites[0])|) + Body(sites[0]) + Stream(sites[1..])
  {
    hide Body, Encode;
  }

  lemma Regroup(before: seq<byte>, len: seq<byte>, body: seq<byte>, rest: seq<byte>, tail: seq<byte>)
    ensures var head := [TAG_FIELD] + len + body;
      && before + (head + rest) + tail == (before + head) + rest + tail
      && before + (head + rest) + tail == before + [TAG_FIELD] + len + body + (rest + tail)
  {
  }

  lemma NoTags(sites: seq<Site>)
    requires |sites| == 0
    ensures Tags(sites) == {}
  {
  }

  /** Every tag of a well-formed file is found, and nothing else. */
  lemma ParsesStream(sites: seq<Site>)
    requires Sized(sites)
    ensures ScanFrom(Stream(sites), 0) == Scan(Tags(sites), true)
  {
    hide ScanFrom, Stream;
    ScanStops(Stream(sites), |Stream(sites)|);
    ScanStream([], sites, []);
    assert [] + Stream(sites) + [] == Stream(sites);
  }

  /** A desync after well-formed records keeps their tags and reports ok = false. */
  lemma DesyncKeepsPrefix(sites: seq<Site>, tail: seq<byte>)
    requires Sized(sites) && |tail| > 0 && tail[0] != TAG_FIELD
    ensures ScanFrom(Stream(sites) + tail, 0) == Scan(Tags(sites), false)
  {
    hide Stream, EntryTag, VarintFrom;
    ScanStream([], sites, tail);
    assert [] + Stream(sites) + tail == Stream(sites) + tail;
    assert (Stream(sites) + tail)[|Stream(sites)|] == tail[0];
  }
}
