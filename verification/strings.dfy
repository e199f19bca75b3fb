/** String helpers shared by the model: the small parts of Python's `str` API that the
    modelled code relies on (`join`, `split`, `in`, `lower`, `capitalize`, `%s` of an int,
    ordering of `sorted`). Characters are compared by code point, as Python does. */
module Strings {

  /** `sep.join(parts)`. */
  function Join(sep: string, parts: seq<string>): (r: string)
    ensures |parts| == 1 ==> r == parts[0]
  {
    if |parts| == 0 then ""
    else if |parts| == 1 then parts[0]
    else parts[0] + sep + Join(sep, parts[1..])
  }

  /** `s.split(c)` for a one-character separator: the pieces between separators, at least one. */
  function Split(s: string, c: char): (r: seq<string>)
    ensures |r| >= 1
    ensures forall i :: 0 <= i < |r| ==> c !in r[i]
  {
    if |s| == 0 then [""]
    else
      var rest := Split(s[1..], c);
      if s[0] == c then [""] + rest
      else [[s[0]] + rest[0]] + rest[1..]
  }

  lemma JoinCons(sep: string, p: string, ps: seq<string>)
    requires |ps| >= 1
    ensures Join(sep, [p] + ps) == p + sep + Join(sep, ps)
  {
    assert ([p] + ps)[1..] == ps;
  }

  /** Splitting on `c` and joining the pieces with `c` gives back the original string. */
  lemma {:induction false} SplitJoin(s: string, c: char)
    ensures Join([c], Split(s, c)) == s
  {
    if |s| > 0 {
      var rest := Split(s[1..], c);
      SplitJoin(s[1..], c);
      if s[0] == c {
        JoinCons([c], "", rest);
        assert s == [s[0]] + s[1..];
      } else {
        if |rest| == 1 {
          assert Split(s, c) == [[s[0]] + rest[0]];
        } else {
          assert Split(s, c) == [[s[0]] + rest[0]] + rest[1..];
          JoinCons([c], [s[0]] + rest[0], rest[1..]);
          JoinCons([c], rest[0], rest[1..]);
          assert rest == [rest[0]] + rest[1..];
        }
        assert s == [s[0]] + s[1..];
      }
    }
  }

  /** `t` is a prefix of `s`. */
  predicate StartsWith(s: string, t: string) {
    |t| <= |s| && s[..|t|] == t
  }

  /** Text appended after a prefix keeps it a prefix. */
  lemma StartsWithAppend(s: string, t: string, u: string)
    requires StartsWith(s, t)
    ensures StartsWith(s + u, t)
  {
    assert (s + u)[..|t|] == s[..|t|];
  }

  /** `s.endswith(t)`. */
  predicate EndsWith(s: string, t: string) {
    |t| <= |s| && s[|s| - |t|..] == t
  }

  /** `t in s`: `t` occurs as a contiguous substring of `s`. */
  predicate Contains(s: string, t: string)
    decreases |s|
  {
    StartsWith(s, t) || (|s| > 0 && Contains(s[1..], t))
  }

  /** `t` occurs in `s` starting at position `i`. */
  predicate OccursAt(s: string, t: string, i: int) {
    0 <= i <= |s| - |t| && s[i..i + |t|] == t
  }

  /** `Contains` agrees with the positional definition of a substring. */
  lemma {:induction false} ContainsAt(s: string, t: string)
    ensures Contains(s, t) <==> exists i :: OccursAt(s, t, i)
  {
    if Contains(s, t) {
      if !StartsWith(s, t) {
        ContainsAt(s[1..], t);
        var i :| OccursAt(s[1..], t, i);
        assert s[i + 1..i + 1 + |t|] == s[1..][i..i + |t|];
        assert OccursAt(s, t, i + 1);
      } else {
        assert OccursAt(s, t, 0);
      }
    }
    if exists i :: OccursAt(s, t, i) {
      var i :| OccursAt(s, t, i);
      if i > 0 {
        assert s[1..][i - 1..i - 1 + |t|] == s[i..i + |t|];
        assert OccursAt(s[1..], t, i - 1);
        ContainsAt(s[1..], t);
      }
    }
  }

  /** A string made of `n` copies of `c` (`c * n`). */
  function Repeat(c: char, n: nat): (r: string)
    ensures |r| == n && forall i :: 0 <= i < n ==> r[i] == c
  {
    if n == 0 then "" else [c] + Repeat(c, n - 1)
  }

  // ----- decimal rendering of naturals (`"%s" % n`, `str(n)`) -----

  function DigitChar(d: nat): (c: char)
    requires d < 10
    ensures '0' <= c <= '9'
  {
    "0123456789"[d]
  }

  predicate IsDigits(s: string) {
    forall i :: 0 <= i < |s| ==> '0' <= s[i] <= '9'
  }

  /** Python's `str(n)` for a natural number. */
  function DecimalString(n: nat): (r: string)
    ensures |r| >= 1 && IsDigits(r)
  {
    if n < 10 then [DigitChar(n)] else DecimalString(n / 10) + [DigitChar(n % 10)]
  }

  /** The value of a string of decimal digits. */
  function DecimalValue(s: string): nat
    requires IsDigits(s)
  {
    if |s| == 0 then 0 else 10 * DecimalValue(s[..|s| - 1]) + (s[|s| - 1] as int - '0' as int)
  }

  /** Reading back the rendering of `n` gives `n`. */
  lemma {:induction false} DecimalRoundTrip(n: nat)
    ensures DecimalValue(DecimalString(n)) == n
  {
    var r := DecimalString(n);
    if n >= 10 {
      DecimalRoundTrip(n / 10);
      assert r[..|r| - 1] == DecimalString(n / 10);
    }
  }

  /** Different naturals have different renderings. */
  lemma DecimalInjective(m: nat, n: nat)
    requires DecimalString(m) == DecimalString(n)
    ensures m == n
  {
    DecimalRoundTrip(m);
    DecimalRoundTrip(n);
  }

  // ----- case mapping (ASCII letters only) -----

  predicate IsUpperChar(c: char) { 'A' <= c <= 'Z' }

  function LowerChar(c: char): char {
    if 'A' <= c <= 'Z' then (c as int + 32) as char else c
  }

  function UpperChar(c: char): char {
    if 'a' <= c <= 'z' then (c as int - 32) as char else c
  }

  /** `s.lower()`. */
  function Lower(s: string): (r: string)
    ensures |r| == |s| && forall i :: 0 <= i < |s| ==> r[i] == LowerChar(s[i])
  {
    seq(|s|, i requires 0 <= i < |s| => LowerChar(s[i]))
  }

  /** `s.upper()`. */
  function Upper(s: string): (r: string)
    ensures |r| == |s| && forall i :: 0 <= i < |s| ==> r[i] == UpperChar(s[i])
  {
    seq(|s|, i requires 0 <= i < |s| => UpperChar(s[i]))
  }

  /** `s.capitalize()`: first character upper-cased, the rest lower-cased. */
  function Capitalize(s: string): (r: string)
    ensures |r| == |s|
    ensures |s| > 0 ==> r[0] == UpperChar(s[0]) && r[1..] == Lower(s[1..])
  {
    if |s| == 0 then "" else [UpperChar(s[0])] + Lower(s[1..])
  }

  // ----- the order `sorted` uses on strings -----

  /** Python's `a < b` on strings: lexicographic by code point, a proper prefix first. */
  predicate Less(a: string, b: string)
    decreases |a|
  {
    if |a| == 0 then |b| > 0
    else if |b| == 0 then false
    else a[0] < b[0] || (a[0] == b[0] && Less(a[1..], b[1..]))
  }

  lemma {:induction false} LessIrreflexive(a: string)
    ensures !Less(a, a)
  {
    if |a| > 0 { LessIrreflexive(a[1..]); }
  }

  lemma {:induction false} LessTransitive(a: string, b: string, c: string)
    requires Less(a, b) && Less(b, c)
    ensures Less(a, c)
  {
    if |a| > 0 && |b| > 0 && |c| > 0 && a[0] == b[0] == c[0] {
      LessTransitive(a[1..], b[1..], c[1..]);
    }
  }

  lemma {:induction false} LessTotal(a: string, b: string)
    requires a != b
    ensures Less(a, b) || Less(b, a)
  {
    if |a| > 0 && |b| > 0 && a[0] == b[0] {
      assert a == [a[0]] + a[1..] && b == [b[0]] + b[1..];
      LessTotal(a[1..], b[1..]);
    }
  }

  lemma LessAsymmetric(a: string, b: string)
    requires Less(a, b)
    ensures !Less(b, a)
  {
    if Less(b, a) {
      LessTransitive(a, b, a);
      LessIrreflexive(a);
    }
  }

  /** Strictly increasing under `Less`: sorted and without repeats. */
  predicate StrictlySorted(s: seq<string>) {
    forall i, j :: 0 <= i < j < |s| ==> Less(s[i], s[j])
  }

  /** `a <= b` on strings. */
  predicate Le(a: string, b: string) {
    a == b || Less(a, b)
  }

  lemma LeTransitive(a: string, b: string, c: string)
    requires Le(a, b) && Le(b, c)
    ensures Le(a, c)
  {
    if a != b && b != c {
      LessTransitive(a, b, c);
    }
  }

  /** Not below means at or above. */
  lemma NotLessLe(a: string, b: string)
    requires !Less(a, b)
    ensures Le(b, a)
  {
    if a != b {
      LessTotal(a, b);
    }
  }

  /** Sorted in ascending order, repeats allowed. */
  predicate Ascending(s: seq<string>) {
    forall i, j :: 0 <= i < j < |s| ==> Le(s[i], s[j])
  }

  /** `x` put into an ascending sequence before the first element not below it. */
  function Insert(x: string, s: seq<string>): (r: seq<string>)
    requires Ascending(s)
    ensures |r| == |s| + 1
    ensures multiset(r) == multiset(s) + multiset{x}
    ensures Ascending(r)
    decreases |s|
  {
    if |s| == 0 then [x]
    else if !Less(s[0], x) then
      InsertFront(x, s);
      [x] + s
    else
      var rest := Insert(x, s[1..]);
      assert s == [s[0]] + s[1..];
      InsertAfter(x, s, rest);
      [s[0]] + rest
  }

  /** An element not above the first one of an ascending sequence can go in front. */
  lemma InsertFront(x: string, s: seq<string>)
    requires Ascending(s) && |s| > 0 && !Less(s[0], x)
    ensures Ascending([x] + s)
  {
    NotLessLe(s[0], x);
    var r := [x] + s;
    forall i, j | 0 <= i < j < |r| ensures Le(r[i], r[j]) {
      assert r[j] == s[j - 1];
      if i == 0 {
        LeTransitive(x, s[0], s[j - 1]);
      } else {
        assert r[i] == s[i - 1];
      }
    }
  }

  /** The first element of an ascending sequence, below `x`, stays in front of the rest with
      `x` inserted. */
  lemma InsertAfter(x: string, s: seq<string>, rest: seq<string>)
    requires Ascending(s) && |s| > 0 && Less(s[0], x)
    requires Ascending(rest) && multiset(rest) == multiset(s[1..]) + multiset{x}
    ensures Ascending([s[0]] + rest)
  {
    forall j | 0 <= j < |rest| ensures Le(s[0], rest[j]) {
      assert rest[j] in multiset(rest);
      if rest[j] != x {
        assert rest[j] in multiset(s[1..]);
        var k :| 0 <= k < |s[1..]| && s[1..][k] == rest[j];
        assert s[k + 1] == rest[j];
      }
    }
    var r := [s[0]] + rest;
    forall i, j | 0 <= i < j < |r| ensures Le(r[i], r[j]) {
      assert r[j] == rest[j - 1];
      if i > 0 {
        assert r[i] == rest[i - 1];
      }
    }
  }

  /** Python's `sorted` on strings: an ascending permutation of `s`. */
  function Sort(s: seq<string>): (r: seq<string>)
    ensures |r| == |s|
    ensures multiset(r) == multiset(s)
    ensures Ascending(r)
    decreases |s|
  {
    if |s| == 0 then []
    else
      assert s == [s[0]] + s[1..];
      Insert(s[0], Sort(s[1..]))
  }

  /** Sorting strings without repeats gives a strictly increasing sequence. */
  lemma SortDistinct(s: seq<string>)
    requires forall i, j :: 0 <= i < j < |s| ==> s[i] != s[j]
    ensures StrictlySorted(Sort(s))
  {
    var r := Sort(s);
    forall i, j | 0 <= i < j < |r| ensures Less(r[i], r[j]) {
      if r[i] == r[j] {
        Twice(r, i, j);
        MultisetAtMostOnce(s, r[i]);
      }
    }
  }

  /** A value occurs at most once in a sequence without repeats. */
  lemma {:induction false} MultisetAtMostOnce(s: seq<string>, x: string)
    requires forall i, j :: 0 <= i < j < |s| ==> s[i] != s[j]
    ensures multiset(s)[x] <= 1
    decreases |s|
  {
    if |s| > 0 {
      assert s == [s[0]] + s[1..];
      MultisetAtMostOnce(s[1..], x);
      if s[0] == x {
        assert x !in s[1..];
      }
    }
  }

  /** A value found at two positions occurs at least twice. */
  lemma Twice(r: seq<string>, i: int, j: int)
    requires 0 <= i < j < |r| && r[i] == r[j]
    ensures multiset(r)[r[i]] >= 2
  {
    var front := r[..j];
    assert r == front + [r[j]] + r[j + 1..];
    assert front[i] == r[i];
    assert multiset(front)[r[i]] >= 1;
  }
}
