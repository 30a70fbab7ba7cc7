/** The string operations of the Go standard library that the source relies on. */
module Text {
  import opened Prelude

  // ---------------------------------------------------------------- decimals

  function Digit(d: nat): (c: char)
    requires d < 10
    ensures '0' <= c <= '9'
    ensures c as int - '0' as int == d
  {
    ('0' as int + d) as char
  }

  /** strconv.Itoa on a non-negative number. */
  function Itoa(n: nat): (s: string)
    ensures |s| >= 1
    ensures forall i | 0 <= i < |s| :: '0' <= s[i] <= '9'
  {
    if n < 10 then [Digit(n)] else Itoa(n / 10) + [Digit(n % 10)]
  }

  function NatOf(s: string): (n: nat)
    requires forall i | 0 <= i < |s| :: '0' <= s[i] <= '9'
  {
    if |s| == 0 then 0
    else NatOf(s[..|s| - 1]) * 10 + (s[|s| - 1] as int - '0' as int)
  }

  lemma {:induction false} NatOfItoa(n: nat)
    ensures NatOf(Itoa(n)) == n
  {
    if n >= 10 {
      NatOfItoa(n / 10);
      assert Itoa(n)[..|Itoa(n)| - 1] == Itoa(n / 10);
    } else {
      assert Itoa(n)[..0] == "";
    }
  }

  lemma ItoaInjective(m: nat, n: nat)
    requires Itoa(m) == Itoa(n)
    ensures m == n
  {
    NatOfItoa(m);
    NatOfItoa(n);
  }

  lemma HashPosition(x: string, n: nat)
    ensures var s := x + " #" + Itoa(n); s[|x| + 1] == '#' && forall i | |x| + 1 < i < |s| :: s[i] != '#'
  {
    var s := x + " #" + Itoa(n);
    forall i | |x| + 1 < i < |s| ensures s[i] != '#' {
      assert s[i] == Itoa(n)[i - |x| - 2];
    }
  }

  /** "x #k" determines both x and k. */
  lemma SuffixSplit(x: string, m: nat, y: string, n: nat)
    requires x + " #" + Itoa(m) == y + " #" + Itoa(n)
    ensures x == y && m == n
  {
    var a, b := x + " #" + Itoa(m), y + " #" + Itoa(n);
    HashPosition(x, m);
    HashPosition(y, n);
    assert |x| == |y|;
    assert x == a[..|x|] == b[..|y|] == y;
    assert Itoa(m) == a[|x| + 2..] == b[|y| + 2..] == Itoa(n);
    ItoaInjective(m, n);
  }

  /** prefix + decimal is injective in the number. */
  lemma PrefixItoaInjective(prefix: string, m: nat, n: nat)
    requires prefix + Itoa(m) == prefix + Itoa(n)
    ensures m == n
  {
    assert (prefix + Itoa(m))[|prefix|..] == Itoa(m);
    assert (prefix + Itoa(n))[|prefix|..] == Itoa(n);
    ItoaInjective(m, n);
  }

  /** strconv.Atoi: an optional sign, then one or more decimal digits. */
  function Atoi(s: string): (r: Option<int>)
    ensures r.Some? ==> |s| > 0 && forall i | 0 <= i < |s| :: s[i] == '+' || s[i] == '-' || '0' <= s[i] <= '9'
  {
    var signed := |s| > 0 && (s[0] == '+' || s[0] == '-');
    var digits := if signed then s[1..] else s;
    if |digits| > 0 && (forall i | 0 <= i < |digits| :: '0' <= digits[i] <= '9') then
      assert forall i | 0 <= i < |s| :: i > 0 && signed ==> s[i] == digits[i - 1];
      var n: int := NatOf(digits);
      Some(if signed && s[0] == '-' then -n else n)
    else None
  }

  // ---------------------------------------------------------------- prefixes, membership

  predicate HasPrefix(s: string, p: string) {
    |p| <= |s| && s[..|p|] == p
  }

  predicate ContainsAny(s: string, chars: string) {
    exists i | 0 <= i < |s| :: s[i] in chars
  }

  // ---------------------------------------------------------------- ordering

  /** Go's string order: bytewise on UTF-8, which is code-point order. */
  predicate StrLess(a: string, b: string) {
    if |b| == 0 then false
    else if |a| == 0 then true
    else if a[0] != b[0] then a[0] < b[0]
    else StrLess(a[1..], b[1..])
  }

  lemma {:induction false} StrLessIrreflexive(a: string)
    ensures !StrLess(a, a)
  {
    if |a| > 0 { StrLessIrreflexive(a[1..]); }
  }

  lemma {:induction false} StrLessTotal(a: string, b: string)
    ensures StrLess(a, b) || StrLess(b, a) || a == b
  {
    if |a| > 0 && |b| > 0 && a[0] == b[0] {
      StrLessTotal(a[1..], b[1..]);
      assert a == [a[0]] + a[1..] && b == [b[0]] + b[1..];
    }
  }

  lemma {:induction false} StrLessTransitive(a: string, b: string, c: string)
    requires StrLess(a, b) && StrLess(b, c)
    ensures StrLess(a, c)
  {
    if |a| > 0 && a[0] == b[0] == c[0] { StrLessTransitive(a[1..], b[1..], c[1..]); }
  }

  // ---------------------------------------------------------------- spaces and commas

  /** unicode.IsSpace. */
  predicate IsSpace(c: char) {
    '\t' <= c <= '\r' || c == ' ' || c == '\U{85}' || c == '\U{A0}' || c == '\U{1680}'
    || '\U{2000}' <= c <= '\U{200A}' || c == '\U{2028}' || c == '\U{2029}'
    || c == '\U{202F}' || c == '\U{205F}' || c == '\U{3000}'
  }

  function TrimLeft(s: string): (r: string)
    ensures |r| > 0 ==> !IsSpace(r[0])
    ensures |r| <= |s|
  {
    if |s| > 0 && IsSpace(s[0]) then TrimLeft(s[1..]) else s
  }

  function TrimRight(s: string): (r: string)
    ensures |r| > 0 ==> !IsSpace(r[|r| - 1])
    ensures |r| <= |s| && r == s[..|r|]
  {
    if |s| > 0 && IsSpace(s[|s| - 1]) then TrimRight(s[..|s| - 1]) else s
  }

  /** strings.TrimSpace. */
  function TrimSpace(s: string): (r: string)
    ensures |r| > 0 ==> !IsSpace(r[0]) && !IsSpace(r[|r| - 1])
    ensures |r| <= |s|
  {
    TrimRight(TrimLeft(s))
  }

  /** A string is its own trimming exactly when neither end is a space. */
  lemma TrimmedIff(s: string)
    ensures TrimSpace(s) == s <==> |s| == 0 || (!IsSpace(s[0]) && !IsSpace(s[|s| - 1]))
  {
    if |s| > 0 && IsSpace(s[0]) {
      assert |TrimLeft(s)| <= |s| - 1;
    }
  }

  /** strings.Split(s, ","). */
  function SplitCommas(s: string): (r: seq<string>)
    ensures |r| >= 1
  {
    if |s| == 0 then [""]
    else
      var rest := SplitCommas(s[1..]);
      if s[0] == ',' then [""] + rest else [[s[0]] + rest[0]] + rest[1..]
  }

  lemma {:induction false} SplitNoComma(s: string)
    requires ',' !in s
    ensures SplitCommas(s) == [s]
  {
    if |s| > 0 { SplitNoComma(s[1..]); assert s == [s[0]] + s[1..]; }
  }

  lemma {:induction false} SplitPieces(s: string)
    ensures forall x | x in SplitCommas(s) :: ',' !in x
  {
    if |s| > 0 { SplitPieces(s[1..]); }
  }

  lemma SplitWholeIff(s: string)
    ensures SplitCommas(s) == [s] <==> ',' !in s
  {
    SplitPieces(s);
    if ',' !in s { SplitNoComma(s); }
    assert SplitCommas(s) == [s] ==> s in SplitCommas(s);
  }

  lemma {:induction false} SplitAtComma(s: string, t: string)
    requires ',' !in s
    ensures SplitCommas(s + "," + t) == [s] + SplitCommas(t)
  {
    var whole := s + "," + t;
    if |s| == 0 {
      assert whole == "," + t && whole[1..] == t;
    } else {
      SplitAtComma(s[1..], t);
      assert whole[1..] == s[1..] + "," + t;
      assert s == [s[0]] + s[1..];
    }
  }
}
