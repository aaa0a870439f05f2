/** What the three thread functions are asked to print, defined without reference to how they
    compute it. */
module Answers {

  function Fib(n: nat): int {
    if n < 2 then n else Fib(n - 1) + Fib(n - 2)
  }

  function CollatzStep(a: int): int { if a % 2 == 0 then a / 2 else 3 * a + 1 }

  function Iterate(a: int, k: nat): int {
    if k == 0 then a else CollatzStep(Iterate(a, k - 1))
  }

  lemma {:induction false} IteratePositive(a: int, k: nat)
    requires a >= 1
    ensures Iterate(a, k) >= 1
  {
    if k > 0 { IteratePositive(a, k - 1); }
  }

  function Sum(s: seq<int>): int {
    if s == [] then 0 else Sum(s[..|s| - 1]) + s[|s| - 1]
  }

  /** y is the greatest sum of a run of consecutive numbers of s, the empty run included. */
  ghost predicate GreatestRun(s: seq<int>, y: int) {
    && (exists a, b :: 0 <= a <= b <= |s| && Sum(s[a..b]) == y)
    && (forall a, b :: 0 <= a <= b <= |s| ==> Sum(s[a..b]) <= y)
  }

  /** x is the greatest sum of a non-empty suffix of s. */
  ghost predicate GreatestSuffix(s: seq<int>, x: int) {
    && (exists a :: 0 <= a < |s| && Sum(s[a..]) == x)
    && (forall a :: 0 <= a < |s| ==> Sum(s[a..]) <= x)
  }

  // The running values that max_subarray keeps

  function Max(a: int, b: int): int { if a > b then a else b }

  function SuffixValue(s: seq<int>): int {
    if s == [] then 0 else Max(s[|s| - 1], SuffixValue(s[..|s| - 1]) + s[|s| - 1])
  }

  function RunValue(s: seq<int>): int {
    if s == [] then 0 else Max(RunValue(s[..|s| - 1]), SuffixValue(s))
  }

  lemma {:induction false} SumLast(s: seq<int>, a: int)
    requires 0 <= a < |s|
    ensures Sum(s[a..]) == Sum(s[..|s| - 1][a..]) + s[|s| - 1]
  {
    assert s[a..][..|s[a..]| - 1] == s[..|s| - 1][a..];
  }

  lemma {:induction false} SuffixValueIsGreatest(s: seq<int>)
    requires s != []
    ensures GreatestSuffix(s, SuffixValue(s))
  {
    var rest, v := s[..|s| - 1], s[|s| - 1];
    SumLast(s, |s| - 1);
    assert rest[|s| - 1..] == [];
    assert Sum(s[|s| - 1..]) == v;
    if rest != [] {
      SuffixValueIsGreatest(rest);
      forall a | 0 <= a < |s| ensures Sum(s[a..]) <= SuffixValue(s) {
        SumLast(s, a);
      }
      var a :| 0 <= a < |rest| && Sum(rest[a..]) == SuffixValue(rest);
      SumLast(s, a);
      assert Sum(s[a..]) == SuffixValue(rest) + v;
    } else {
      assert s[0..] == s && SuffixValue(rest) == 0;
      assert Sum(s[0..]) == SuffixValue(s);
    }
  }

  /** The value that max_subarray prints after reading s is the brute-force answer for s. */
  lemma {:induction false} RunValueIsGreatest(s: seq<int>)
    ensures GreatestRun(s, RunValue(s))
  {
    if s == [] {
      assert Sum(s[0..0]) == 0;
    } else {
      var rest := s[..|s| - 1];
      RunValueIsGreatest(rest);
      SuffixValueIsGreatest(s);
      forall a, b | 0 <= a <= b <= |s| ensures Sum(s[a..b]) <= RunValue(s) {
        if b < |s| {
          SliceOfPrefix(s, a, b);
        } else if a < b {
          assert s[a..b] == s[a..];
        } else {
          assert s[a..b] == rest[0..0] == [];
        }
      }
      RunValueReached(s);
    }
  }

  lemma {:induction false} SliceOfPrefix(s: seq<int>, a: int, b: int)
    requires 0 <= a <= b < |s|
    ensures s[..|s| - 1][a..b] == s[a..b]
  {
  }

  lemma {:induction false} RunValueReached(s: seq<int>)
    requires s != [] && GreatestRun(s[..|s| - 1], RunValue(s[..|s| - 1])) && GreatestSuffix(s, SuffixValue(s))
    ensures exists a, b :: 0 <= a <= b <= |s| && Sum(s[a..b]) == RunValue(s)
  {
    var rest := s[..|s| - 1];
    if RunValue(rest) > SuffixValue(s) {
      var a, b :| 0 <= a <= b <= |rest| && Sum(rest[a..b]) == RunValue(rest);
      SliceOfPrefix(s, a, b);
    } else {
      var a :| 0 <= a < |s| && Sum(s[a..]) == SuffixValue(s);
      assert s[a..|s|] == s[a..];
    }
  }
}
