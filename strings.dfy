/**
 * String primitives that the Go and TypeScript code uses: prefix tests,
 * `substring(0, n)`, `split`, first-occurrence replacement, decimal digits
 * and the byte-wise ordering that ORDER BY applies to varchar columns.
 */
module Strings {
  import opened Wrappers

  predicate StartsWith(s: string, prefix: string) {
    |prefix| <= |s| && s[..|prefix|] == prefix
  }

  /** JavaScript `s.substring(0, n)`: the first n characters, or all of s. */
  function Take(s: string, n: nat): (r: string)
    ensures |r| == if n <= |s| then n else |s|
    ensures StartsWith(s, r)
  {
    if n <= |s| then s[..n] else s
  }

  /** JavaScript `s.split(c)[0]`: everything before the first c (all of s when c is absent). */
  function BeforeFirst(s: string, c: char): (r: string)
    ensures StartsWith(s, r)
    ensures c !in r
    ensures |r| < |s| ==> s[|r|] == c
  {
    if |s| == 0 then ""
    else if s[0] == c then ""
    else [s[0]] + BeforeFirst(s[1..], c)
  }

  /** JavaScript `s.split(c)` for a one-character separator. */
  function Split(s: string, c: char): (r: seq<string>)
    ensures |r| >= 1
    ensures forall i :: 0 <= i < |r| ==> c !in r[i]
    decreases |s|
  {
    var f := BeforeFirst(s, c);
    if |f| == |s| then [s] else [f] + Split(s[|f| + 1..], c)
  }

  /** The inverse of Split: the fields glued back together with c. */
  function Join(fields: seq<string>, c: char): string {
    if |fields| == 0 then ""
    else if |fields| == 1 then fields[0]
    else fields[0] + [c] + Join(fields[1..], c)
  }

  lemma {:induction false} SplitThenJoin(s: string, c: char)
    ensures Join(Split(s, c), c) == s
    decreases |s|
  {
    var f := BeforeFirst(s, c);
    if |f| < |s| {
      var rest := s[|f| + 1..];
      var tail := Split(rest, c);
      SplitThenJoin(rest, c);
      calc {
        Join(Split(s, c), c);
        Join([f] + tail, c);
        { assert ([f] + tail)[1..] == tail; }
        f + [c] + Join(tail, c);
        f + [c] + rest;
        { CutAt(s, |f|); }
        s;
      }
    } else {
      assert f == s[..|f|] == s;
    }
  }

  /** A string is its prefix, the character at i and its suffix. */
  lemma CutAt(s: string, i: nat)
    requires i < |s|
    ensures s == s[..i] + [s[i]] + s[i + 1..]
  {
  }

  lemma {:induction false} BeforeFirstOfJoin(f: string, c: char, rest: string)
    requires c !in f
    ensures BeforeFirst(f + [c] + rest, c) == f
    ensures BeforeFirst(f, c) == f
  {
    if |f| > 0 {
      var t := f + [c] + rest;
      BeforeFirstOfJoin(f[1..], c, rest);
      assert t[0] == f[0] && t[1..] == f[1..] + [c] + rest;
      assert BeforeFirst(t, c) == [f[0]] + BeforeFirst(t[1..], c);
      assert BeforeFirst(f, c) == [f[0]] + BeforeFirst(f[1..], c);
      assert f == [f[0]] + f[1..];
    }
  }

  lemma {:induction false} JoinThenSplit(fields: seq<string>, c: char)
    requires |fields| >= 1
    requires forall i :: 0 <= i < |fields| ==> c !in fields[i]
    ensures Split(Join(fields, c), c) == fields
  {
    if |fields| == 1 {
      BeforeFirstOfJoin(fields[0], c, "");
    } else {
      var rest := Join(fields[1..], c);
      BeforeFirstOfJoin(fields[0], c, rest);
      var s := fields[0] + [c] + rest;
      assert s[|fields[0]| + 1..] == rest;
      JoinThenSplit(fields[1..], c);
    }
  }

  /** pat occurs in s starting at index j. */
  predicate OccursAt(s: string, pat: string, j: nat) {
    j + |pat| <= |s| && s[j..j + |pat|] == pat
  }

  /** Index of the first occurrence of pat in s at or after `from`. */
  function IndexFrom(s: string, pat: string, from: nat): (r: Option<nat>)
    ensures r.Some? ==> from <= r.value && OccursAt(s, pat, r.value)
    ensures r.Some? ==> forall j :: from <= j < r.value ==> !OccursAt(s, pat, j)
    ensures r.None? ==> forall j :: from <= j ==> !OccursAt(s, pat, j)
    decreases |s| - from
  {
    if from + |pat| > |s| then None
    else if s[from..from + |pat|] == pat then Some(from)
    else IndexFrom(s, pat, from + 1)
  }

  /** Go `strings.Replace(s, pat, "", 1)`: removes the first occurrence of pat only. */
  function RemoveFirst(s: string, pat: string): string {
    if |pat| == 0 then s
    else match IndexFrom(s, pat, 0)
      case None => s
      case Some(i) => s[..i] + s[i + |pat|..]
  }

  lemma RemoveFirstOfPrefix(pat: string, t: string)
    requires |pat| > 0
    ensures RemoveFirst(pat + t, pat) == t
  {
    var s := pat + t;
    assert OccursAt(s, pat, 0);
    assert IndexFrom(s, pat, 0) == Some(0);
    assert s[|pat|..] == t;
  }

  lemma RemoveFirstAbsent(s: string, pat: string)
    requires forall j :: 0 <= j ==> !OccursAt(s, pat, j)
    ensures RemoveFirst(s, pat) == s
  {
  }

  predicate IsDigit(ch: char) {
    '0' <= ch <= '9'
  }

  predicate AllDigits(s: string) {
    forall i :: 0 <= i < |s| ==> IsDigit(s[i])
  }

  function DigitValue(ch: char): nat
    requires IsDigit(ch)
  {
    (ch as int - '0' as int) as nat
  }

  function DigitChar(d: nat): (ch: char)
    requires d < 10
    ensures IsDigit(ch) && DigitValue(ch) == d
  {
    ('0' as int + d) as char
  }

  /** The number a string of decimal digits denotes (the empty string denotes 0). */
  function DigitsValue(s: string): nat
    requires AllDigits(s)
  {
    if |s| == 0 then 0 else 10 * DigitsValue(s[..|s| - 1]) + DigitValue(s[|s| - 1])
  }

  /** Decimal notation of n, as `String(n)` or `%d` print it. */
  function NatToString(n: nat): (r: string)
    ensures |r| >= 1 && AllDigits(r)
    ensures DigitsValue(r) == n
    ensures |r| > 1 ==> r[0] != '0'
  {
    if n < 10 then [DigitChar(n)]
    else
      var prefix := NatToString(n / 10);
      var r := prefix + [DigitChar(n % 10)];
      assert r[..|r| - 1] == prefix;
      r
  }

  /** Decimal notation of an integer, with a leading '-' when negative. */
  function IntToString(i: int): (r: string)
    ensures i >= 0 ==> r == NatToString(i)
    ensures i < 0 ==> r == "-" + NatToString(-i)
  {
    if i < 0 then "-" + NatToString(-i) else NatToString(i)
  }

  /** n as exactly two digits, zero padded ("07"). */
  function Digits2(n: nat): (r: string)
    requires n < 100
    ensures |r| == 2 && AllDigits(r) && DigitsValue(r) == n
  {
    var r := [DigitChar(n / 10), DigitChar(n % 10)];
    assert r[..1] == [r[0]] && r[..1][..0] == [];
    assert DigitsValue(r[..1]) == n / 10;
    r
  }

  /** n as exactly four digits, zero padded ("0042"). */
  function Digits4(n: nat): (r: string)
    requires n < 10000
    ensures |r| == 4 && AllDigits(r) && DigitsValue(r) == n
  {
    var tens := n / 10;
    var hundreds := tens / 10;
    var thousands := hundreds / 10;
    var r := [DigitChar(thousands), DigitChar(hundreds % 10), DigitChar(tens % 10), DigitChar(n % 10)];
    assert r[..3][..2][..1] == [r[0]] && r[..3][..2][..1][..0] == [];
    assert r[..3][..2] == [r[0], r[1]];
    assert r[..3] == [r[0], r[1], r[2]];
    assert DigitsValue(r[..3][..2][..1]) == thousands;
    assert DigitsValue(r[..3][..2]) == hundreds;
    assert DigitsValue(r[..3]) == tens;
    r
  }

  lemma DigitCharOfValue(ch: char)
    requires IsDigit(ch)
    ensures DigitChar(DigitValue(ch)) == ch
  {
  }

  /** Two digits read and printed back give the same text. */
  lemma DigitsRoundTrip2(s: string)
    requires |s| == 2 && AllDigits(s)
    ensures DigitsValue(s) < 100 && Digits2(DigitsValue(s)) == s
  {
    assert s[..1][..0] == [];
    var a, b := DigitValue(s[0]), DigitValue(s[1]);
    assert DigitsValue(s[..1]) == a;
    assert DigitsValue(s) == 10 * a + b;
    DigitCharOfValue(s[0]);
    DigitCharOfValue(s[1]);
  }

  lemma DivMod10(n: int, q: int, r: int)
    requires n == 10 * q + r && 0 <= r < 10
    ensures n / 10 == q && n % 10 == r
  {
  }

  lemma DivMod100(n: int, q: int, r: int)
    requires n == 100 * q + r && 0 <= r < 100
    ensures n / 100 == q && n % 100 == r
  {
  }

  lemma DivMod1000(n: int, q: int, r: int)
    requires n == 1000 * q + r && 0 <= r < 1000
    ensures n / 1000 == q && n % 1000 == r
  {
  }

  lemma FourDigitsValue(s: string)
    requires |s| == 4 && AllDigits(s)
    ensures DigitsValue(s) == 1000 * DigitValue(s[0]) + 100 * DigitValue(s[1]) + 10 * DigitValue(s[2]) + DigitValue(s[3])
  {
    assert s[..3][..2][..1][..0] == [];
    assert s[..3][..2][..1] == [s[0]];
    assert s[..3][..2] == [s[0], s[1]];
    assert s[..3] == [s[0], s[1], s[2]];
    assert DigitsValue(s[..3][..2][..1]) == DigitValue(s[0]);
    assert DigitsValue(s[..3][..2]) == 10 * DigitValue(s[0]) + DigitValue(s[1]);
    assert DigitsValue(s[..3]) == 100 * DigitValue(s[0]) + 10 * DigitValue(s[1]) + DigitValue(s[2]);
  }

  /** Four digits read and printed back give the same text. */
  lemma DigitsRoundTrip4(s: string)
    requires |s| == 4 && AllDigits(s)
    ensures DigitsValue(s) < 10000 && Digits4(DigitsValue(s)) == s
  {
    FourDigitsValue(s);
    var a, b, c, d := DigitValue(s[0]), DigitValue(s[1]), DigitValue(s[2]), DigitValue(s[3]);
    var n := DigitsValue(s);
    DivMod1000(n, a, 100 * b + 10 * c + d);
    DivMod100(n, 10 * a + b, 10 * c + d);
    DivMod10(10 * a + b, a, b);
    DivMod10(n, 100 * a + 10 * b + c, d);
    DivMod10(100 * a + 10 * b + c, 10 * a + b, c);
    DigitCharOfValue(s[0]);
    DigitCharOfValue(s[1]);
    DigitCharOfValue(s[2]);
    DigitCharOfValue(s[3]);
  }

  /** Byte-wise (code point) ordering of strings, the order ORDER BY gives a varchar under the C collation. */
  predicate StrLe(a: string, b: string)
    decreases |a|
  {
    |a| == 0 || (|b| > 0 && (a[0] < b[0] || (a[0] == b[0] && StrLe(a[1..], b[1..]))))
  }

  lemma {:induction false} StrLeTotal(a: string, b: string)
    ensures StrLe(a, b) || StrLe(b, a)
    decreases |a|
  {
    if |a| > 0 && |b| > 0 && a[0] == b[0] {
      StrLeTotal(a[1..], b[1..]);
    }
  }

  lemma {:induction false} StrLeTransitive(a: string, b: string, c: string)
    requires StrLe(a, b) && StrLe(b, c)
    ensures StrLe(a, c)
    decreases |a|
  {
    if |a| > 0 && a[0] == b[0] && b[0] == c[0] {
      StrLeTransitive(a[1..], b[1..], c[1..]);
    }
  }

  lemma {:induction false} StrLeAntisymmetric(a: string, b: string)
    requires StrLe(a, b) && StrLe(b, a)
    ensures a == b
    decreases |a|
  {
    if |a| > 0 {
      StrLeAntisymmetric(a[1..], b[1..]);
      assert a == [a[0]] + a[1..];
      assert b == [b[0]] + b[1..];
    }
  }
}
