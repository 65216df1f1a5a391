/** Small shared vocabulary: optional values, white space as the original's string
    methods and regexes see it, decimal numerals and sums over counters. */
module Basics {

  datatype Option<+T> = None | Some(value: T)

  /** `str.isspace` on one character; `\s` and `str.strip` use the same set. */
  predicate IsSpace(c: char) {
    || '\t' <= c <= '\r' || '\U{1C}' <= c <= ' ' || c == '\U{85}' || c == '\U{A0}'
    || c == '\U{1680}' || '\U{2000}' <= c <= '\U{200A}' || c == '\U{2028}' || c == '\U{2029}'
    || c == '\U{202F}' || c == '\U{205F}' || c == '\U{3000}'
  }

  const WHITE_SPACE :=
    "\t\n\U{0B}\U{0C}\r\U{1C}\U{1D}\U{1E}\U{1F} \U{85}\U{A0}\U{1680}\U{2000}\U{2001}\U{2002}\U{2003}\U{2004}\U{2005}"
    + "\U{2006}\U{2007}\U{2008}\U{2009}\U{200A}\U{2028}\U{2029}\U{202F}\U{205F}\U{3000}"

  /** The ranges, character by character. */
  lemma WhiteSpaceIs(c: char)
    ensures IsSpace(c) <==> c in WHITE_SPACE
  {
  }

  function LStrip(s: string): (r: string)
    ensures |r| <= |s|
  {
    if s != [] && IsSpace(s[0]) then LStrip(s[1..]) else s
  }

  function RStrip(s: string): string {
    if s != [] && IsSpace(s[|s| - 1]) then RStrip(s[..|s| - 1]) else s
  }

  function Strip(s: string): string { RStrip(LStrip(s)) }

  predicate Spaces(s: string) { forall k | 0 <= k < |s| :: IsSpace(s[k]) }

  lemma {:induction false} LStripParts(s: string) returns (a: string)
    ensures Spaces(a) && s == a + LStrip(s)
    ensures LStrip(s) != "" ==> !IsSpace(LStrip(s)[0])
    ensures s != "" && IsSpace(s[0]) ==> a != ""
  {
    if s != "" && IsSpace(s[0]) {
      a := LStripParts(s[1..]);
      a := [s[0]] + a;
    } else {
      a := "";
    }
  }

  lemma {:induction false} RStripParts(s: string) returns (b: string)
    ensures Spaces(b) && s == RStrip(s) + b
    ensures RStrip(s) != "" ==> !IsSpace(RStrip(s)[|RStrip(s)| - 1]) && RStrip(s)[0] == s[0]
  {
    if s != "" && IsSpace(s[|s| - 1]) {
      b := RStripParts(s[..|s| - 1]);
      b := b + [s[|s| - 1]];
    } else {
      b := "";
    }
  }

  /** Stripping cuts white space off both ends, and all of it. */
  lemma StripParts(s: string) returns (a: string, b: string)
    ensures Spaces(a) && Spaces(b) && s == a + Strip(s) + b
    ensures Strip(s) != "" ==> !IsSpace(Strip(s)[0]) && !IsSpace(Strip(s)[|Strip(s)| - 1])
  {
    a := LStripParts(s);
    b := RStripParts(LStrip(s));
  }

  lemma {:induction false} SpaceOver(p: string, x: string)
    requires Spaces(p)
    ensures LStrip(p + x) == LStrip(x)
  {
    if p == "" {
      assert p + x == x;
    } else {
      assert (p + x)[1..] == p[1..] + x;
      SpaceOver(p[1..], x);
    }
  }

  lemma {:induction false} SpaceAfter(x: string, p: string)
    requires Spaces(p)
    ensures RStrip(x + p) == RStrip(x)
    decreases |p|
  {
    if p == "" {
      assert x + p == x;
    } else {
      assert (x + p)[..|x + p| - 1] == x + p[..|p| - 1];
      SpaceAfter(x, p[..|p| - 1]);
    }
  }

  lemma StripOf(a: string, q: string, b: string)
    requires Spaces(a) && Spaces(b) && q != "" && !IsSpace(q[0]) && !IsSpace(q[|q| - 1])
    ensures Strip(a + q + b) == q
  {
    assert a + q + b == a + (q + b);
    SpaceOver(a, q + b);
    SpaceAfter(q, b);
  }

  function Digit(d: nat): (c: char)
    requires d < 10
    ensures '0' <= c <= '9'
  {
    ('0' as int + d) as char
  }

  /** The numeral an f-string prints for a counter. */
  function Decimal(n: nat): (s: string)
    ensures |s| > 0 && forall i | 0 <= i < |s| :: '0' <= s[i] <= '9'
  {
    if n < 10 then [Digit(n)] else Decimal(n / 10) + [Digit(n % 10)]
  }

  /** The number a numeral stands for. */
  function NumberOf(s: string): nat
    requires forall i | 0 <= i < |s| :: '0' <= s[i] <= '9'
  {
    if s == "" then 0 else 10 * NumberOf(s[..|s| - 1]) + (s[|s| - 1] as int - '0' as int)
  }

  /** The numeral stands for the counter, without leading zeros. */
  lemma {:induction false} DecimalIs(n: nat)
    ensures NumberOf(Decimal(n)) == n && (Decimal(n)[0] == '0' ==> n == 0)
  {
    if n >= 10 {
      DecimalIs(n / 10);
      assert Decimal(n)[..|Decimal(n)| - 1] == Decimal(n / 10);
    }
  }

  lemma {:induction false} DecimalInjective(m: nat, n: nat)
    requires Decimal(m) == Decimal(n)
    ensures m == n
  {
    var s, t := Decimal(m), Decimal(n);
    assert s[|s| - 1] == Digit(m % 10) && t[|t| - 1] == Digit(n % 10);
    if m >= 10 && n >= 10 {
      assert s[..|s| - 1] == Decimal(m / 10) && t[..|t| - 1] == Decimal(n / 10);
      DecimalInjective(m / 10, n / 10);
    }
  }

  lemma Associate(a: string, b: string, c: string)
    ensures a + (b + c) == a + b + c
  {
  }

  lemma OneMore<T>(a: seq<T>, b: seq<T>, j: nat)
    requires j < |b|
    ensures a + b[..j] + [b[j]] == a + b[..j + 1]
  {
  }

  lemma SliceOfSum<T>(a: seq<T>, b: seq<T>)
    ensures (a + b)[|a|..|a| + |b|] == b
    ensures forall i, j | 0 <= i <= j <= |a| :: (a + b)[i..j] == a[i..j]
  {
  }

  /** The two maps have the same entry at `k`, or both have none. */
  predicate SameAt<K, V(==)>(a: map<K, V>, b: map<K, V>, k: K) {
    (k in a <==> k in b) && (k in a ==> a[k] == b[k])
  }

  lemma Member<T>(s: set<T>) returns (x: T)
    requires s != {}
    ensures x in s
  {
    x :| x in s;
  }

  function Count(m: map<string, nat>, k: string): nat {
    if k in m then m[k] else 0
  }

  /** `sum(m.values())`. */
  ghost function SumValues(m: map<string, nat>): nat {
    if m == map[] then 0 else var k :| k in m; m[k] + SumValues(m - {k})
  }

  /** The sum does not depend on the order in which the keys are taken out. */
  lemma {:induction false} SumRemove(m: map<string, nat>, k: string)
    requires k in m
    ensures SumValues(m) == m[k] + SumValues(m - {k})
    decreases m
  {
    var j :| j in m && SumValues(m) == m[j] + SumValues(m - {j});
    if j != k {
      assert k in m - {j} && j in m - {k};
      SumRemove(m - {j}, k);
      SumRemove(m - {k}, j);
      assert m - {j} - {k} == m - {k} - {j};
    }
  }

  /** Overwriting one counter moves the sum by exactly the change of that counter. */
  lemma SumUpdate(m: map<string, nat>, k: string, v: nat)
    ensures SumValues(m[k := v]) == SumValues(m) - Count(m, k) + v
  {
    var n := m[k := v];
    SumRemove(n, k);
    assert n - {k} == m - {k};
    if k in m {
      SumRemove(m, k);
    } else {
      assert m - {k} == m;
    }
  }
}
