/**
 * The Python string operations the pipeline relies on, over `seq<char>`:
 * `str.split`/`str.join` with a one-character separator, `str.replace`,
 * `str.startswith`/`str.endswith`, `str.lower` restricted to ASCII letters,
 * the code-point ordering that `sorted()` uses on strings, and `str(n)` for
 * naturals.
 */
module Strings {

  // ---------------------------------------------------------------------------
  // split / join

  /** Python `s.split(sep)` for a one-character separator: never empty, no part holds `sep`. */
  function Split(s: string, sep: char): (parts: seq<string>)
    ensures |parts| >= 1
    ensures forall i :: 0 <= i < |parts| ==> sep !in parts[i]
    decreases |s|
  {
    if s == [] then [""]
    else
      var rest := Split(s[1..], sep);
      if s[0] == sep then [""] + rest
      else [[s[0]] + rest[0]] + rest[1..]
  }

  /** Python `sep.join(parts)`. */
  function Join(parts: seq<string>, sep: char): string
    decreases |parts|
  {
    if |parts| == 0 then ""
    else if |parts| == 1 then parts[0]
    else parts[0] + [sep] + Join(parts[1..], sep)
  }

  /** Joining the parts of a split gives the original string back. */
  lemma {:induction false} JoinSplit(s: string, sep: char)
    ensures Join(Split(s, sep), sep) == s
    decreases |s|
  {
    if s != [] {
      var rest := Split(s[1..], sep);
      JoinSplit(s[1..], sep);
      if s[0] == sep {
        assert Split(s, sep) == [""] + rest;
        assert ([""] + rest)[1..] == rest;
      } else if |rest| == 1 {
        assert Split(s, sep) == [[s[0]] + rest[0]];
      } else {
        var parts := Split(s, sep);
        assert parts == [[s[0]] + rest[0]] + rest[1..];
        assert parts[1..] == rest[1..];
        assert Join(rest, sep) == rest[0] + [sep] + Join(rest[1..], sep);
      }
    }
  }

  lemma {:induction false} SplitWithoutSeparator(p: string, sep: char)
    requires sep !in p
    ensures Split(p, sep) == [p]
    decreases |p|
  {
    if p != [] {
      SplitWithoutSeparator(p[1..], sep);
      assert [p[0]] + p[1..] == p;
    }
  }

  lemma {:induction false} SplitAfterPart(p: string, t: string, sep: char)
    requires sep !in p
    ensures Split(p + [sep] + t, sep) == [p] + Split(t, sep)
    decreases |p|
  {
    var s := p + [sep] + t;
    if p == [] {
      assert s[1..] == t;
    } else {
      assert s[1..] == p[1..] + [sep] + t;
      SplitAfterPart(p[1..], t, sep);
      assert [p[0]] + p[1..] == p;
    }
  }

  /** Splitting a join gives the parts back, provided no part holds the separator. */
  lemma {:induction false} SplitJoin(parts: seq<string>, sep: char)
    requires |parts| >= 1
    requires forall i :: 0 <= i < |parts| ==> sep !in parts[i]
    ensures Split(Join(parts, sep), sep) == parts
    decreases |parts|
  {
    if |parts| == 1 {
      SplitWithoutSeparator(parts[0], sep);
    } else {
      SplitJoin(parts[1..], sep);
      SplitAfterPart(parts[0], Join(parts[1..], sep), sep);
      assert [parts[0]] + parts[1..] == parts;
    }
  }

  // ---------------------------------------------------------------------------
  // prefixes, suffixes, replace

  predicate StartsWith(s: string, prefix: string) {
    |prefix| <= |s| && s[..|prefix|] == prefix
  }

  predicate EndsWith(s: string, suffix: string) {
    |suffix| <= |s| && s[|s| - |suffix|..] == suffix
  }

  /** `pat` occurs somewhere in `s`. */
  predicate Contains(s: string, pat: string)
    decreases |s|
  {
    |pat| <= |s| && (s[..|pat|] == pat || (|s| > 0 && Contains(s[1..], pat)))
  }

  /** Python `s.replace(pat, rep)` for a non-empty pattern: left to right, non-overlapping. */
  function ReplaceAll(s: string, pat: string, rep: string): string
    requires |pat| > 0
    decreases |s|
  {
    if |s| < |pat| then s
    else if s[..|pat|] == pat then rep + ReplaceAll(s[|pat|..], pat, rep)
    else [s[0]] + ReplaceAll(s[1..], pat, rep)
  }

  /** Replacing a pattern that does not occur changes nothing. */
  lemma {:induction false} ReplaceAbsent(s: string, pat: string, rep: string)
    requires |pat| > 0 && !Contains(s, pat)
    ensures ReplaceAll(s, pat, rep) == s
    decreases |s|
  {
    if |s| >= |pat| {
      ReplaceAbsent(s[1..], pat, rep);
      assert [s[0]] + s[1..] == s;
    }
  }

  /** Replacing by something no longer never lengthens the string. */
  lemma {:induction false} ReplaceShortens(s: string, pat: string, rep: string)
    requires |pat| > 0 && |rep| <= |pat|
    ensures |ReplaceAll(s, pat, rep)| <= |s|
    decreases |s|
  {
    if |s| >= |pat| {
      if s[..|pat|] == pat {
        ReplaceShortens(s[|pat|..], pat, rep);
      } else {
        ReplaceShortens(s[1..], pat, rep);
      }
    }
  }

  /** A string that starts with the pattern starts with the replacement afterwards. */
  lemma ReplaceAtStart(s: string, pat: string, rep: string)
    requires |pat| > 0 && StartsWith(s, pat)
    ensures StartsWith(ReplaceAll(s, pat, rep), rep)
  {
    assert ReplaceAll(s, pat, rep) == rep + ReplaceAll(s[|pat|..], pat, rep);
  }

  /** Replacing a single character leaves a prefix that lacks it in place. */
  lemma {:induction false} ReplaceCharKeepsPrefix(p: string, t: string, c: char, rep: string)
    requires c !in p
    ensures ReplaceAll(p + t, [c], rep) == p + ReplaceAll(t, [c], rep)
    decreases |p|
  {
    if p != [] {
      var s := p + t;
      assert s[..1] == [p[0]] && s[1..] == p[1..] + t;
      assert p[0] != c;
      assert s[..1] != [c];
      assert ReplaceAll(s, [c], rep) == [s[0]] + ReplaceAll(s[1..], [c], rep);
      ReplaceCharKeepsPrefix(p[1..], t, c, rep);
      assert [p[0]] + (p[1..] + ReplaceAll(t, [c], rep)) == p + ReplaceAll(t, [c], rep);
    } else {
      assert p + t == t;
    }
  }

  /** `s.rfind(c)`: the last position holding `c`, or -1. */
  function RFind(s: string, c: char): (i: int)
    ensures -1 <= i < |s|
    ensures i >= 0 ==> s[i] == c
    ensures forall j :: i < j < |s| ==> s[j] != c
    decreases |s|
  {
    if s == [] then -1 else if s[|s| - 1] == c then |s| - 1 else RFind(s[..|s| - 1], c)
  }

  /**
   * `PurePath(name).stem` of a one-component name: the name without its last suffix,
   * where the suffix starts at the last '.' unless that dot is the first or the last
   * character.
   */
  function Stem(name: string): (r: string)
    ensures |r| <= |name| && r == name[..|r|]
    ensures '.' !in name ==> r == name
    ensures r != name ==>
      && 0 < |r| < |name| - 1 && name[|r|] == '.'
      && forall j :: |r| < j < |name| ==> name[j] != '.'
  {
    var i := RFind(name, '.');
    if 0 < i < |name| - 1 then name[..i] else name
  }

  /** A base name and a suffix without dots: the stem is the base name. */
  lemma StemDropsSuffix(base: string, ext: string)
    requires base != [] && ext != [] && '.' !in ext
    ensures Stem(base + "." + ext) == base
  {
    var name := base + "." + ext;
    assert name[|base|] == '.';
    assert forall j :: |base| < j < |name| ==> name[j] == ext[j - |base| - 1];
    assert name[..|base|] == base;
  }

  // ---------------------------------------------------------------------------
  // ASCII case

  predicate IsUpper(c: char) {
    'A' <= c <= 'Z'
  }

  function LowerChar(c: char): (d: char)
    ensures !IsUpper(d)
    ensures !IsUpper(c) ==> d == c
  {
    if IsUpper(c) then (c as int + 32) as char else c
  }

  /** Python `s.lower()` on ASCII letters; every other character is kept. */
  function AsciiLower(s: string): (r: string)
    ensures |r| == |s|
    ensures forall i :: 0 <= i < |s| ==> r[i] == LowerChar(s[i])
  {
    seq(|s|, i requires 0 <= i < |s| => LowerChar(s[i]))
  }

  /** A lower-cased string cannot end with a suffix holding an upper-case ASCII letter. */
  lemma LowerNeverEndsWithUpper(s: string, suffix: string)
    requires exists i :: 0 <= i < |suffix| && IsUpper(suffix[i])
    ensures !EndsWith(AsciiLower(s), suffix)
  {
    var low := AsciiLower(s);
    var i :| 0 <= i < |suffix| && IsUpper(suffix[i]);
    if |suffix| <= |low| {
      assert low[|low| - |suffix|..][i] == low[|low| - |suffix| + i];
      assert !IsUpper(low[|low| - |suffix| + i]);
    }
  }

  // ---------------------------------------------------------------------------
  // code-point ordering (Python `<` on str) and sorting

  /** Python `a < b` on strings: lexicographic by code point, a proper prefix is smaller. */
  predicate StrLess(a: string, b: string)
    decreases |a|
  {
    |b| > 0 && (|a| == 0 || a[0] < b[0] || (a[0] == b[0] && StrLess(a[1..], b[1..])))
  }

  lemma {:induction false} StrLessIrreflexive(a: string)
    ensures !StrLess(a, a)
    decreases |a|
  {
    if |a| > 0 {
      StrLessIrreflexive(a[1..]);
    }
  }

  lemma {:induction false} StrLessTransitive(a: string, b: string, c: string)
    requires StrLess(a, b) && StrLess(b, c)
    ensures StrLess(a, c)
    decreases |a|
  {
    if |a| > 0 && a[0] == b[0] && b[0] == c[0] {
      StrLessTransitive(a[1..], b[1..], c[1..]);
    }
  }

  lemma {:induction false} StrLessTotal(a: string, b: string)
    requires a != b
    ensures StrLess(a, b) || StrLess(b, a)
    decreases |a|
  {
    if |a| > 0 && |b| > 0 && a[0] == b[0] {
      assert a == [a[0]] + a[1..] && b == [b[0]] + b[1..];
      StrLessTotal(a[1..], b[1..]);
    }
  }

  lemma StrLessAsymmetric(a: string, b: string)
    requires StrLess(a, b)
    ensures !StrLess(b, a)
  {
    if StrLess(b, a) {
      StrLessTransitive(a, b, a);
      StrLessIrreflexive(a);
    }
  }

  /** Non-decreasing in code-point order, as `sorted()` returns. */
  predicate Sorted(s: seq<string>) {
    forall i, j :: 0 <= i < j < |s| ==> !StrLess(s[j], s[i])
  }

  predicate StrictlySorted(s: seq<string>) {
    forall i, j :: 0 <= i < j < |s| ==> StrLess(s[i], s[j])
  }

  function Insert(s: seq<string>, x: string): seq<string>
    decreases |s|
  {
    if s == [] then [x]
    else if StrLess(s[0], x) then [s[0]] + Insert(s[1..], x)
    else [x] + s
  }

  lemma {:induction false} InsertElements(s: seq<string>, x: string)
    ensures multiset(Insert(s, x)) == multiset(s) + multiset{x}
    decreases |s|
  {
    if s != [] && StrLess(s[0], x) {
      InsertElements(s[1..], x);
      assert s == [s[0]] + s[1..];
    }
  }

  lemma {:induction false} InsertSorted(s: seq<string>, x: string)
    requires Sorted(s)
    ensures Sorted(Insert(s, x))
    decreases |s|
  {
    if s != [] {
      if StrLess(s[0], x) {
        InsertSorted(s[1..], x);
        InsertElements(s[1..], x);
        var r := Insert(s[1..], x);
        forall k | 0 <= k < |r|
          ensures !StrLess(r[k], s[0])
        {
          assert r[k] in multiset(r);
          if r[k] == x {
            StrLessAsymmetric(s[0], x);
          } else {
            assert r[k] in multiset(s[1..]);
            var m :| 0 <= m < |s[1..]| && s[1..][m] == r[k];
            assert s[m + 1] == r[k];
          }
        }
      } else {
        forall k | 0 < k < |s| + 1
          ensures !StrLess(([x] + s)[k], x)
        {
          if StrLess(s[k - 1], x) {
            if s[0] == s[k - 1] {
            } else {
              StrLessTotal(s[0], s[k - 1]);
              if StrLess(s[0], s[k - 1]) {
                StrLessTransitive(s[0], s[k - 1], x);
              }
            }
          }
        }
      }
    }
  }

  /** Python `sorted(xs)` on a list of strings. */
  function SortStrings(xs: seq<string>): seq<string>
    decreases |xs|
  {
    if xs == [] then [] else Insert(SortStrings(xs[1..]), xs[0])
  }

  /** `sorted` returns a non-decreasing rearrangement of its argument. */
  lemma {:induction false} SortStringsCorrect(xs: seq<string>)
    ensures Sorted(SortStrings(xs))
    ensures multiset(SortStrings(xs)) == multiset(xs)
    decreases |xs|
  {
    if xs != [] {
      SortStringsCorrect(xs[1..]);
      InsertSorted(SortStrings(xs[1..]), xs[0]);
      InsertElements(SortStrings(xs[1..]), xs[0]);
      assert xs == [xs[0]] + xs[1..];
    }
  }

  /** Two sorted rearrangements of each other start with the same element. */
  lemma SortedSameHead(s: seq<string>, t: seq<string>)
    requires Sorted(s) && Sorted(t) && multiset(s) == multiset(t) && s != []
    ensures t != [] && s[0] == t[0]
  {
    assert s[0] in multiset(t);
    var k :| 0 <= k < |t| && t[k] == s[0];
    assert t[0] in multiset(s);
    var m :| 0 <= m < |s| && s[m] == t[0];
    assert !StrLess(s[0], t[0]) by {
      if k > 0 { assert !StrLess(t[k], t[0]); } else { StrLessIrreflexive(s[0]); }
    }
    assert !StrLess(t[0], s[0]) by {
      if m > 0 { assert !StrLess(s[m], s[0]); } else { StrLessIrreflexive(t[0]); }
    }
    if s[0] != t[0] {
      StrLessTotal(s[0], t[0]);
      assert false;
    }
  }

  lemma TailMultiset(s: seq<string>)
    requires s != []
    ensures multiset(s[1..]) == multiset(s) - multiset{s[0]}
  {
    assert s == [s[0]] + s[1..];
  }

  /** A sorted rearrangement is unique: there is one answer `sorted` can give. */
  lemma {:induction false} SortedUnique(s: seq<string>, t: seq<string>)
    requires Sorted(s) && Sorted(t) && multiset(s) == multiset(t)
    ensures s == t
    decreases |s|
  {
    if s != [] {
      SortedSameHead(s, t);
      TailMultiset(s);
      TailMultiset(t);
      SortedUnique(s[1..], t[1..]);
      assert s == [s[0]] + s[1..] && t == [t[0]] + t[1..];
    }
  }

  /** A sorted sequence without repetitions is strictly increasing. */
  lemma SortedDistinctIsStrict(s: seq<string>)
    requires Sorted(s)
    requires forall i, j :: 0 <= i < j < |s| ==> s[i] != s[j]
    ensures StrictlySorted(s)
  {
    forall i, j | 0 <= i < j < |s|
      ensures StrLess(s[i], s[j])
    {
      StrLessTotal(s[i], s[j]);
    }
  }

  /** Every finite non-empty set of strings has a least element. */
  lemma {:induction false} MinExists(keys: set<string>)
    requires keys != {}
    ensures exists m :: m in keys && forall y :: y in keys ==> !StrLess(y, m)
    decreases |keys|
  {
    var x :| x in keys;
    if keys == {x} {
      StrLessIrreflexive(x);
      assert forall y :: y in keys ==> y == x;
    } else {
      MinExists(keys - {x});
      var m :| m in keys - {x} && forall y :: y in keys - {x} ==> !StrLess(y, m);
      if StrLess(x, m) {
        forall y | y in keys
          ensures !StrLess(y, x)
        {
          if y != x && StrLess(y, x) {
            StrLessTransitive(y, x, m);
          }
          StrLessIrreflexive(x);
        }
      } else {
        assert forall y :: y in keys ==> !StrLess(y, m);
      }
    }
  }

  /** The keys of a dict in the order `sorted()` visits them. */
  ghost function SortedSet(keys: set<string>): (r: seq<string>)
    ensures StrictlySorted(r)
    ensures forall x :: x in r <==> x in keys
    decreases |keys|
  {
    if keys == {} then []
    else
      MinExists(keys);
      var m :| m in keys && forall y :: y in keys ==> !StrLess(y, m);
      var rest := SortedSet(keys - {m});
      LeastConsStrict(m, rest, keys);
      [m] + rest
  }

  lemma LeastConsStrict(m: string, rest: seq<string>, keys: set<string>)
    requires m in keys && forall y :: y in keys ==> !StrLess(y, m)
    requires StrictlySorted(rest) && forall x :: x in rest <==> x in keys - {m}
    ensures StrictlySorted([m] + rest)
  {
    forall j | 0 <= j < |rest|
      ensures StrLess(m, rest[j])
    {
      assert rest[j] in keys - {m};
      StrLessTotal(m, rest[j]);
    }
  }

  /** Two strictly increasing sequences with the same elements are equal. */
  lemma {:induction false} StrictSameElementsEqual(r: seq<string>, t: seq<string>)
    requires StrictlySorted(r) && StrictlySorted(t)
    requires forall x :: x in r <==> x in t
    ensures r == t
    decreases |r|
  {
    SameElementsEmpty(r, t);
    if r != [] {
      assert r[0] in t;
      HeadMinimal(r);
      HeadMinimal(t);
      StrLessTrichotomy(r[0], t[0]);
      assert r[0] == t[0];
      forall x
        ensures x in r[1..] <==> x in t[1..]
      {
        if x in r[1..] {
          var i :| 0 <= i < |r[1..]| && r[1..][i] == x;
          assert StrLess(r[0], r[i + 1]);
          StrLessIrreflexive(x);
          assert x in t && x != t[0];
          var j :| 0 <= j < |t| && t[j] == x;
          assert t[1..][j - 1] == x;
        }
        if x in t[1..] {
          var i :| 0 <= i < |t[1..]| && t[1..][i] == x;
          assert StrLess(t[0], t[i + 1]);
          StrLessIrreflexive(x);
          assert x in r && x != r[0];
          var j :| 0 <= j < |r| && r[j] == x;
          assert r[1..][j - 1] == x;
        }
      }
      StrictSameElementsEqual(r[1..], t[1..]);
      assert r == [r[0]] + r[1..] && t == [t[0]] + t[1..];
    }
  }

  /** No element of a strictly increasing sequence is below its head. */
  lemma HeadMinimal(s: seq<string>)
    requires StrictlySorted(s) && s != []
    ensures forall x :: x in s ==> !StrLess(x, s[0])
  {
    forall x | x in s
      ensures !StrLess(x, s[0])
    {
      var i :| 0 <= i < |s| && s[i] == x;
      if i > 0 {
        StrLessAsymmetric(s[0], s[i]);
      } else {
        StrLessIrreflexive(x);
      }
    }
  }

  lemma StrLessTrichotomy(a: string, b: string)
    ensures a == b || StrLess(a, b) || StrLess(b, a)
  {
    if a != b {
      StrLessTotal(a, b);
    }
  }

  /** Two sequences with the same elements are both empty or both not. */
  lemma SameElementsEmpty(r: seq<string>, t: seq<string>)
    requires forall x :: x in r <==> x in t
    ensures r == [] <==> t == []
  {
    if r != [] {
      assert r[0] in t;
    }
    if t != [] {
      assert t[0] in r;
    }
  }

  /** Python `sorted(d)` for a dict `d` whose key set is `keys`. */
  method SortedKeys(keys: set<string>) returns (r: seq<string>)
    ensures StrictlySorted(r)
    ensures r == SortedSet(keys)
    ensures forall x :: x in r <==> x in keys
    ensures |r| == |keys|
  {
    r := [];
    var rest := keys;
    while rest != {}
      invariant rest <= keys
      invariant forall x :: x in r <==> x in keys && x !in rest
      invariant StrictlySorted(r)
      invariant |r| + |rest| == |keys|
      decreases |rest|
    {
      var x :| x in rest;
      InsertStrict(r, x);
      r := Insert(r, x);
      rest := rest - {x};
    }
    StrictSameElementsEqual(r, SortedSet(keys));
  }

  lemma {:induction false} InsertStrict(s: seq<string>, x: string)
    requires StrictlySorted(s) && x !in s
    ensures StrictlySorted(Insert(s, x))
    ensures |Insert(s, x)| == |s| + 1
    ensures forall y :: y in Insert(s, x) <==> y in s || y == x
    decreases |s|
  {
    InsertElements(s, x);
    assert |multiset(Insert(s, x))| == |s| + 1;
    forall y
      ensures y in Insert(s, x) <==> y in s || y == x
    {
      assert y in Insert(s, x) <==> y in multiset(Insert(s, x));
      assert y in s <==> y in multiset(s);
    }
    if s != [] {
      if StrLess(s[0], x) {
        assert x !in s[1..];
        InsertStrict(s[1..], x);
        var r := Insert(s[1..], x);
        forall k | 0 <= k < |r|
          ensures StrLess(s[0], r[k])
        {
          if r[k] != x {
            assert r[k] in s[1..];
            var m :| 0 <= m < |s[1..]| && s[1..][m] == r[k];
            assert s[m + 1] == r[k];
          }
        }
      } else {
        StrLessTotal(s[0], x);
        forall k | 0 < k < |s|
          ensures StrLess(x, s[k])
        {
          StrLessTransitive(x, s[0], s[k]);
        }
      }
    }
  }

  // ---------------------------------------------------------------------------
  // str(n)

  predicate IsDigit(c: char) {
    '0' <= c <= '9'
  }

  function DigitChar(d: nat): (c: char)
    requires d < 10
    ensures IsDigit(c)
  {
    (('0' as int) + d) as char
  }

  function DigitValue(c: char): nat
    requires IsDigit(c)
  {
    (c as int) - ('0' as int)
  }

  /** Python `str(n)` for a natural number: decimal digits, no sign, no leading zeros. */
  function NatToString(n: nat): (s: string)
    ensures |s| >= 1
    ensures forall i :: 0 <= i < |s| ==> IsDigit(s[i])
    decreases n
  {
    if n < 10 then [DigitChar(n)] else NatToString(n / 10) + [DigitChar(n % 10)]
  }

  function ParseNat(s: string): nat
    requires forall i :: 0 <= i < |s| ==> IsDigit(s[i])
    decreases |s|
  {
    if s == [] then 0 else 10 * ParseNat(s[..|s| - 1]) + DigitValue(s[|s| - 1])
  }

  /** Reading the digits back gives the number: `str` is injective on naturals. */
  lemma {:induction false} ParseNatToString(n: nat)
    ensures ParseNat(NatToString(n)) == n
    decreases n
  {
    var s := NatToString(n);
    if n >= 10 {
      ParseNatToString(n / 10);
      assert s[..|s| - 1] == NatToString(n / 10);
    }
  }

  lemma NatToStringInjective(m: nat, n: nat)
    requires NatToString(m) == NatToString(n)
    ensures m == n
  {
    ParseNatToString(m);
    ParseNatToString(n);
  }

  /** Python `str(i)` for any integer: a minus sign before the digits of a negative number. */
  function IntToString(i: int): (s: string)
    ensures |s| >= 1
    ensures s[0] == '-' <==> i < 0
  {
    if i < 0 then "-" + NatToString(-i) else NatToString(i)
  }

  lemma IntToStringInjective(i: int, j: int)
    requires IntToString(i) == IntToString(j)
    ensures i == j
  {
    if i < 0 {
      assert IntToString(i)[1..] == NatToString(-i);
      assert IntToString(j)[1..] == NatToString(-j);
      NatToStringInjective(-i, -j);
    } else {
      NatToStringInjective(i, j);
    }
  }

  /** A number's text holds no letter, so it never equals a word. */
  lemma IntToStringNotWord(i: int, w: string)
    requires |w| > 0 && w[0] != '-' && !IsDigit(w[0])
    ensures IntToString(i) != w
  {
    if i >= 0 {
      assert IsDigit(IntToString(i)[0]);
    }
  }

  /** Different middles between the same prefix and suffix give different strings. */
  lemma FramesDiffer(p: string, a: string, b: string, q: string)
    requires a != b
    ensures p + a + q != p + b + q
  {
    if |a| == |b| {
      assert a == (p + a + q)[|p|..|p| + |a|];
      assert b == (p + b + q)[|p|..|p| + |b|];
    }
  }
}
