/** Python's ordering of `str` values (code point by code point), the built-in
    `sorted` on a list of strings, pandas' `Series.unique`, and `str` of an
    integer. */
module Strings {

  /** Python's `a < b` on strings: lexicographic by code point, a proper prefix
      being smaller. */
  predicate Less(a: string, b: string)
    decreases |a|
  {
    if a == [] then b != []
    else if b == [] then false
    else if a[0] == b[0] then Less(a[1..], b[1..])
    else a[0] < b[0]
  }

  predicate LessEq(a: string, b: string) { a == b || Less(a, b) }

  lemma {:induction false} LessTransitive(a: string, b: string, c: string)
    requires Less(a, b) && Less(b, c)
    ensures Less(a, c)
  {
    if a != [] && b != [] && c != [] && a[0] == b[0] && b[0] == c[0] {
      LessTransitive(a[1..], b[1..], c[1..]);
    }
  }

  /** Any two different strings are ordered one way or the other. */
  lemma {:induction false} LessTotal(a: string, b: string)
    requires a != b
    ensures Less(a, b) || Less(b, a)
  {
    if a != [] && b != [] && a[0] == b[0] {
      assert a == [a[0]] + a[1..] && b == [b[0]] + b[1..];
      LessTotal(a[1..], b[1..]);
    }
  }

  lemma LessEqTransitive(a: string, b: string, c: string)
    requires LessEq(a, b) && LessEq(b, c)
    ensures LessEq(a, c)
  {
    if a != b && b != c {
      LessTransitive(a, b, c);
    }
  }

  /** Ascending, duplicates allowed. */
  predicate Sorted(s: seq<string>)
  {
    forall i, j :: 0 <= i < j < |s| ==> LessEq(s[i], s[j])
  }

  /** Ascending with no value twice. */
  predicate StrictlySorted(s: seq<string>)
  {
    forall i, j :: 0 <= i < j < |s| ==> Less(s[i], s[j])
  }

  predicate NoDuplicates(s: seq<string>)
  {
    forall x :: x in s ==> multiset(s)[x] == 1
  }

  function Insert(x: string, s: seq<string>): (r: seq<string>)
    ensures multiset(r) == multiset(s) + multiset{x}
  {
    if s == [] then [x]
    else if LessEq(x, s[0]) then [x] + s
    else
      assert s == [s[0]] + s[1..];
      [s[0]] + Insert(x, s[1..])
  }

  lemma {:induction false} InsertSorted(x: string, s: seq<string>)
    requires Sorted(s)
    ensures Sorted(Insert(x, s))
  {
    if s == [] {
    } else if LessEq(x, s[0]) {
      forall j | 0 <= j < |s| ensures LessEq(x, s[j]) {
        if j > 0 { LessEqTransitive(x, s[0], s[j]); }
      }
    } else {
      LessTotal(x, s[0]);
      InsertSorted(x, s[1..]);
      var t := Insert(x, s[1..]);
      var r := [s[0]] + t;
      forall y | y in t ensures LessEq(s[0], y) {
        assert y in multiset(t);
        assert y == x || y in multiset(s[1..]);
      }
      forall i, j | 0 <= i < j < |r| ensures LessEq(r[i], r[j]) {
        if i == 0 { assert r[j] == t[j - 1]; }
      }
    }
  }

  /** Python's `sorted(xs)` on a list of strings. pandas' and Python's sorts
      agree on the result for a total order, so the insertion order used here
      is immaterial: the result is the one ascending permutation. */
  function Sort(s: seq<string>): (r: seq<string>)
    ensures multiset(r) == multiset(s)
  {
    if s == [] then []
    else
      assert s == [s[0]] + s[1..];
      Insert(s[0], Sort(s[1..]))
  }

  /** The result of `sorted` is ascending and a permutation of its input. */
  lemma {:induction false} SortIsSortedPermutation(s: seq<string>)
    ensures Sorted(Sort(s)) && multiset(Sort(s)) == multiset(s)
  {
    if s != [] {
      SortIsSortedPermutation(s[1..]);
      InsertSorted(s[0], Sort(s[1..]));
    }
  }

  /** pandas' `Series.unique()`: each value of the input exactly once. */
  function Unique(s: seq<string>): (r: seq<string>)
    ensures forall x :: x in r <==> x in s
    ensures NoDuplicates(r)
  {
    if s == [] then []
    else
      var u := Unique(s[..|s| - 1]);
      var last := s[|s| - 1];
      assert s == s[..|s| - 1] + [last];
      if last in u then u
      else
        assert multiset(u + [last]) == multiset(u) + multiset{last};
        u + [last]
  }

  /** A value that occurs once cannot sit at two positions. */
  lemma OnceAtOnePosition(s: seq<string>, i: int, j: int)
    requires 0 <= i < j < |s| && multiset(s)[s[i]] <= 1
    ensures s[i] != s[j]
  {
    var v := s[i];
    assert s == s[..j] + s[j..];
    assert v in s[..j];
    assert s[j..] == [s[j]] + s[j + 1..];
    assert multiset(s) == multiset(s[..j]) + multiset{s[j]} + multiset(s[j + 1..]);
  }

  /** `sorted(unique(xs))`: ascending without repetition, with exactly the
      values of `xs`. */
  lemma SortUniqueStrict(s: seq<string>)
    ensures StrictlySorted(Sort(Unique(s)))
    ensures forall x :: x in Sort(Unique(s)) <==> x in s
  {
    var u := Unique(s);
    var r := Sort(u);
    SortIsSortedPermutation(u);
    forall x ensures x in r <==> x in s {
      assert x in r <==> x in multiset(r);
      assert x in u <==> x in multiset(u);
    }
    forall i, j | 0 <= i < j < |r| ensures Less(r[i], r[j]) {
      assert r[i] in multiset(u);
      OnceAtOnePosition(r, i, j);
    }
  }

  function DigitChar(d: int): (c: char)
    requires 0 <= d < 10
    ensures '0' <= c <= '9'
  {
    "0123456789"[d]
  }

  /** Decimal digits of a natural number, no leading zeros. */
  function NatString(n: nat): (r: string)
    ensures |r| >= 1 && '0' <= r[0] <= '9'
    ensures n >= 10 ==> |r| >= 2
  {
    if n < 10 then [DigitChar(n)] else NatString(n / 10) + [DigitChar(n % 10)]
  }

  /** Python's `str(n)` of an `int`. */
  function IntString(n: int): string
  {
    if n < 0 then "-" + NatString(-n) else NatString(n)
  }

  lemma {:induction false} NatStringInjective(a: nat, b: nat)
    requires NatString(a) == NatString(b)
    ensures a == b
  {
    if a >= 10 && b >= 10 {
      var sa, sb := NatString(a), NatString(b);
      assert sa[..|sa| - 1] == NatString(a / 10);
      assert sb[..|sb| - 1] == NatString(b / 10);
      NatStringInjective(a / 10, b / 10);
      assert "0123456789"[a % 10] == "0123456789"[b % 10];
    } else if a < 10 && b < 10 {
      assert "0123456789"[a] == "0123456789"[b];
    }
  }

  /** Distinct integers have distinct decimal spellings, so `str(id)` keys a
      dictionary exactly as the id would. */
  lemma IntStringInjective(a: int, b: int)
    ensures IntString(a) == IntString(b) <==> a == b
  {
    if IntString(a) == IntString(b) {
      if a < 0 && b < 0 {
        assert NatString(-a) == IntString(a)[1..];
        NatStringInjective(-a, -b);
      } else if a >= 0 && b >= 0 {
        NatStringInjective(a, b);
      }
    }
  }
}
