/**
  The Python `str` operations the documentation generator and the report
  renderer rely on. Case handling covers the ASCII letters only.
 */
module Text {

  predicate StartsWith(s: string, prefix: string) {
    |prefix| <= |s| && s[..|prefix|] == prefix
  }

  predicate EndsWith(s: string, suffix: string) {
    |suffix| <= |s| && s[|s| - |suffix|..] == suffix
  }

  /** `part in s` for strings. */
  predicate Contains(s: string, part: string)
    decreases |s|
  {
    StartsWith(s, part) || (s != [] && Contains(s[1..], part))
  }

  /** `s.replace(a, b)` for single characters. */
  function ReplaceChar(s: string, a: char, b: char): (r: string)
    ensures |r| == |s|
    ensures forall i :: 0 <= i < |s| ==> r[i] == if s[i] == a then b else s[i]
  {
    if s == [] then [] else ReplaceChar(s[..|s| - 1], a, b) + [if s[|s| - 1] == a then b else s[|s| - 1]]
  }

  lemma ReplaceCharAppend(x: string, y: string, a: char, b: char)
    ensures ReplaceChar(x + y, a, b) == ReplaceChar(x, a, b) + ReplaceChar(y, a, b)
  {
    var l, r := ReplaceChar(x + y, a, b), ReplaceChar(x, a, b) + ReplaceChar(y, a, b);
    assert |l| == |r|;
    forall i | 0 <= i < |l| ensures l[i] == r[i] {
      if i < |x| { assert (x + y)[i] == x[i]; } else { assert (x + y)[i] == y[i - |x|]; }
    }
  }

  /**
    `s.replace(part, "")`: every occurrence of `part` found scanning left to
    right, without overlap, is removed.
   */
  function RemoveAll(s: string, part: string): (r: string)
    requires part != []
    ensures |r| <= |s|
    decreases |s|
  {
    if |s| < |part| then s
    else if s[..|part|] == part then RemoveAll(s[|part|..], part)
    else [s[0]] + RemoveAll(s[1..], part)
  }

  predicate IsUpperChar(c: char) { 'A' <= c <= 'Z' }
  predicate IsLowerChar(c: char) { 'a' <= c <= 'z' }
  predicate IsCased(c: char) { IsUpperChar(c) || IsLowerChar(c) }

  function ToUpperChar(c: char): (u: char)
    ensures !IsLowerChar(u)
  {
    if IsLowerChar(c) then (c as int - 32) as char else c
  }

  function ToLowerChar(c: char): (l: char)
    ensures !IsUpperChar(l)
  {
    if IsUpperChar(c) then (c as int + 32) as char else c
  }

  /** `s.upper()`. */
  function Upper(s: string): (r: string)
    ensures |r| == |s|
    ensures forall i :: 0 <= i < |s| ==> r[i] == ToUpperChar(s[i])
  {
    if s == [] then [] else [ToUpperChar(s[0])] + Upper(s[1..])
  }

  /** `s.title()`: a cased letter is upper-cased when the character before it is not cased, lower-cased otherwise. */
  function Title(s: string): (r: string)
    ensures |r| == |s|
  {
    TitleAfter(s, false)
  }

  function TitleAfter(s: string, afterCased: bool): (r: string)
    ensures |r| == |s|
    ensures s != [] ==> r[0] == if afterCased then ToLowerChar(s[0]) else ToUpperChar(s[0])
  {
    if s == [] then []
    else [if afterCased then ToLowerChar(s[0]) else ToUpperChar(s[0])] + TitleAfter(s[1..], IsCased(s[0]))
  }

  /** `s.isupper()`: at least one cased character, and none of them lower case. */
  predicate IsUpper(s: string) {
    (exists i :: 0 <= i < |s| && IsUpperChar(s[i])) && forall i :: 0 <= i < |s| ==> !IsLowerChar(s[i])
  }

  /** `c * n`: the character `c` repeated `n` times. */
  function Repeat(c: char, n: nat): (r: string)
    ensures |r| == n
    ensures forall i :: 0 <= i < n ==> r[i] == c
  {
    if n == 0 then [] else [c] + Repeat(c, n - 1)
  }

  /** `sep.join(parts)`. */
  function Join(parts: seq<string>, sep: string): string {
    if parts == [] then ""
    else if |parts| == 1 then parts[0]
    else parts[0] + sep + Join(parts[1..], sep)
  }

  /** `str(n)` for a natural number. */
  function NatToString(n: nat): (r: string)
    ensures r != []
  {
    if n < 10 then [Digit(n)] else NatToString(n / 10) + [Digit(n % 10)]
  }

  function Digit(d: nat): char
    requires d < 10
  {
    "0123456789"[d]
  }

  /** Python's ordering of strings: lexicographic by code point. */
  predicate Below(a: string, b: string) {
    a == [] || (b != [] && (a[0] < b[0] || (a[0] == b[0] && Below(a[1..], b[1..]))))
  }

  lemma {:induction false} BelowTotal(a: string, b: string)
    ensures Below(a, b) || Below(b, a)
  {
    if a != [] && b != [] && a[0] == b[0] {
      BelowTotal(a[1..], b[1..]);
    }
  }

  lemma {:induction false} BelowTransitive(a: string, b: string, c: string)
    requires Below(a, b) && Below(b, c)
    ensures Below(a, c)
  {
    if a != [] && a[0] == b[0] && b[0] == c[0] {
      BelowTransitive(a[1..], b[1..], c[1..]);
    }
  }

  lemma {:induction false} BelowAntisymmetric(a: string, b: string)
    requires Below(a, b) && Below(b, a)
    ensures a == b
  {
    if a != [] {
      BelowAntisymmetric(a[1..], b[1..]);
      assert a == [a[0]] + a[1..] && b == [b[0]] + b[1..];
    }
  }

  predicate SortedStrings(s: seq<string>) {
    forall i, j :: 0 <= i < j < |s| ==> Below(s[i], s[j])
  }

  /** `sorted(s)` for a list of strings. */
  function Sort(s: seq<string>): (r: seq<string>)
    ensures SortedStrings(r)
    ensures multiset(r) == multiset(s)
  {
    if s == [] then []
    else
      assert s == [s[0]] + s[1..];
      Insert(s[0], Sort(s[1..]))
  }

  function Insert(x: string, s: seq<string>): (r: seq<string>)
    requires SortedStrings(s)
    ensures SortedStrings(r)
    ensures multiset(r) == multiset(s) + multiset{x}
  {
    if s == [] then [x]
    else if Below(x, s[0]) then
      forall j | 0 < j < |s| ensures Below(x, s[j]) { BelowTransitive(x, s[0], s[j]); }
      [x] + s
    else
      BelowTotal(x, s[0]);
      var rest := Insert(x, s[1..]);
      assert multiset(rest) == multiset(s[1..]) + multiset{x};
      forall e | e in rest ensures Below(s[0], e) {
        assert e in multiset(rest);
      }
      assert s == [s[0]] + s[1..];
      [s[0]] + rest
  }
}
