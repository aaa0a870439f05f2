/** Scored titles, the order both `argmax` and `merge` use, and the ranking every
    build of the server must end with. */
module Ranking {
  import opened Titles

  /** One slot of the shared score and movie_name arrays. */
  datatype Entry = Entry(score: real, title: Title)

  /** The test with which `merge` takes its left element. */
  predicate Before(a: Entry, b: Entry) {
    a.score > b.score || (a.score == b.score && StrCmp(a.title, b.title) < 0)
  }

  /** Score descending, then title ascending. */
  predicate AtMost(a: Entry, b: Entry) {
    a.score > b.score || (a.score == b.score && StrCmp(a.title, b.title) <= 0)
  }

  predicate Sorted(s: seq<Entry>) {
    forall i, j :: 0 <= i < j < |s| ==> AtMost(s[i], s[j])
  }

  lemma {:induction false} AtMostIsTotalOrder(a: Entry, b: Entry)
    ensures AtMost(a, a)
    ensures AtMost(a, b) <==> !Before(b, a)
    ensures AtMost(a, b) || AtMost(b, a)
    ensures AtMost(a, b) && AtMost(b, a) ==> a == b
  {
    StrCmpSign(a.title, a.title);
    StrCmpSign(a.title, b.title);
  }

  lemma {:induction false} AtMostTransitive(a: Entry, b: Entry, c: Entry)
    requires AtMost(a, b) && AtMost(b, c)
    ensures AtMost(a, c)
  {
    if a.score == b.score == c.score {
      StrCmpTransitive(a.title, b.title, c.title);
    }
  }

  // The reference: insertion sort, which shares no step with the program

  function Insert(e: Entry, s: seq<Entry>): seq<Entry> {
    if s == [] || AtMost(e, s[0]) then [e] + s else [s[0]] + Insert(e, s[1..])
  }

  function Ranked(s: seq<Entry>): seq<Entry> {
    if s == [] then [] else Insert(s[0], Ranked(s[1..]))
  }

  lemma {:induction false} InsertSorts(e: Entry, s: seq<Entry>)
    requires Sorted(s)
    ensures Sorted(Insert(e, s))
    ensures multiset(Insert(e, s)) == multiset(s) + multiset{e}
  {
    if s == [] {
    } else if AtMost(e, s[0]) {
      forall i | 0 <= i < |s| ensures AtMost(e, s[i]) {
        if i > 0 { AtMostTransitive(e, s[0], s[i]); }
      }
    } else {
      var r := Insert(e, s[1..]);
      InsertSorts(e, s[1..]);
      AtMostIsTotalOrder(e, s[0]);
      assert s == [s[0]] + s[1..];
      forall i | 0 <= i < |r| ensures AtMost(s[0], r[i]) {
        assert r[i] in multiset(r);
        assert r[i] == e || r[i] in s[1..];
      }
    }
  }

  lemma {:induction false} RankedSorts(s: seq<Entry>)
    ensures Sorted(Ranked(s))
    ensures multiset(Ranked(s)) == multiset(s)
    ensures |Ranked(s)| == |s|
  {
    if s != [] {
      RankedSorts(s[1..]);
      InsertSorts(s[0], Ranked(s[1..]));
      assert s == [s[0]] + s[1..];
    }
    assert |multiset(Ranked(s))| == |multiset(s)|;
  }

  /** What a ranking is, without its comparisons: scores fall, and equal scores have their titles in
      dictionary order; every entry is there as often as before. */
  lemma {:induction false} RankedMeans(s: seq<Entry>, i: nat, j: nat)
    requires i < j < |s|
    ensures var r := Ranked(s);
      && multiset(r) == multiset(s) && |r| == |s|
      && (r[i].score > r[j].score
          || (r[i].score == r[j].score && (r[i].title == r[j].title || Precedes(r[i].title, r[j].title))))
  {
    RankedSorts(s);
    var r := Ranked(s);
    assert AtMost(r[i], r[j]);
    StrCmpIs(r[i].title, r[j].title);
  }

  /** Two sorted arrangements of the same entries are the same sequence, ties included. */
  lemma {:induction false} SortedUnique(a: seq<Entry>, b: seq<Entry>)
    requires Sorted(a) && Sorted(b) && multiset(a) == multiset(b)
    ensures a == b
  {
    assert |a| == |multiset(a)| == |multiset(b)| == |b|;
    if a != [] {
      SameHead(a, b);
      assert a == [a[0]] + a[1..] && b == [b[0]] + b[1..];
      assert multiset(a[1..]) == multiset(a) - multiset{a[0]};
      assert multiset(b[1..]) == multiset(b) - multiset{b[0]};
      SortedUnique(a[1..], b[1..]);
    }
  }

  lemma {:induction false} SameHead(a: seq<Entry>, b: seq<Entry>)
    requires Sorted(a) && Sorted(b) && multiset(a) == multiset(b) && |a| == |b| > 0
    ensures a[0] == b[0]
  {
    assert a[0] in multiset(b) && b[0] in multiset(a);
    var i :| 0 <= i < |b| && b[i] == a[0];
    var j :| 0 <= j < |a| && a[j] == b[0];
    AtMostIsTotalOrder(a[0], b[0]);
    if i > 0 && j > 0 {
      assert AtMost(b[0], b[i]) && AtMost(a[0], a[j]);
    }
  }

  /** What a sorted permutation of `s` is: the ranking of `s` and nothing else. */
  lemma {:induction false} SortedPermutationIsRanked(a: seq<Entry>, s: seq<Entry>)
    requires Sorted(a) && multiset(a) == multiset(s)
    ensures a == Ranked(s)
  {
    RankedSorts(s);
    SortedUnique(a, Ranked(s));
  }

  // Folded predicates. A few predicates, here and in `SortTree` and `ForkJoin`, hide their
  // definition behind a quantifier that only a term Unfold(which, s) instantiates: the proofs that
  // only carry them along would otherwise unfold `Ranked`, `Merge` and `Result` at every step.

  datatype Folded = RANKING | MERGING | SELECTING | TAKING | LEAVES | RESULT

  predicate Unfold(which: Folded, s: seq<Entry>) { true }

  /** `r` is the ranking of `s`. Folded. */
  ghost predicate RanksAs(s: seq<Entry>, r: seq<Entry>) {
    forall t {:trigger Unfold(RANKING, t)} :: Unfold(RANKING, t) && t == s ==> r == Ranked(s) && |r| == |s|
  }

  lemma {:induction false} UnfoldRanking(s: seq<Entry>, r: seq<Entry>)
    ensures RanksAs(s, r) <==> r == Ranked(s)
  {
    RankedSorts(s);
    assert Unfold(RANKING, s);
  }

  lemma {:induction false} RankingLength(s: seq<Entry>, r: seq<Entry>)
    requires RanksAs(s, r)
    ensures |r| == |s|
  {
    UnfoldRanking(s, r);
    RankedSorts(s);
  }

  // The secret

  function Decorate(key: Title, e: Entry): Entry { Entry(e.score, AddSecret(key, e.title)) }

  function DecorateAll(key: Title, s: seq<Entry>): (r: seq<Entry>)
    ensures |r| == |s|
  {
    seq(|s|, i requires 0 <= i < |s| => Decorate(key, s[i]))
  }

  /** `v` is the ranking of `s` with the secret on every title: what a leaf sort leaves. */
  ghost predicate Finished(key: Title, s: seq<Entry>, v: seq<Entry>) {
    v == DecorateAll(key, Ranked(s))
  }

  lemma {:induction false} DecorateInjective(key: Title, a: Entry, b: Entry)
    requires Decorate(key, a) == Decorate(key, b)
    ensures a == b
  {
    assert a.title == AddSecret(key, a.title)[..|AddSecret(key, a.title)| - |key|];
    assert b.title == AddSecret(key, b.title)[..|AddSecret(key, b.title)| - |key|];
  }

  // Merging

  /** The order in which the `merge` loops of both builds take two runs apart: the right one
      first on a tie. */
  function Merge(a: seq<Entry>, b: seq<Entry>): (r: seq<Entry>)
    ensures |r| == |a| + |b|
  {
    if a == [] then b
    else if b == [] then a
    else if Before(a[0], b[0]) then [a[0]] + Merge(a[1..], b)
    else [b[0]] + Merge(a, b[1..])
  }

  /** `out` has been taken from two runs of which `a` and `b` are left; `m` is their merge.
      Folded. */
  ghost predicate Merging(out: seq<Entry>, a: seq<Entry>, b: seq<Entry>, m: seq<Entry>) {
    forall t {:trigger Unfold(MERGING, t)} :: Unfold(MERGING, t) && t == a ==> out + Merge(a, b) == m
  }

  lemma {:induction false} StartMerging(a: seq<Entry>, b: seq<Entry>) returns (m: seq<Entry>)
    ensures Merging([], a, b, m) && |m| == |a| + |b|
  {
    m := Merge(a, b);
    UnfoldMerging(a, b, m);
  }

  lemma {:induction false} UnfoldMerging(a: seq<Entry>, b: seq<Entry>, m: seq<Entry>)
    ensures Merging([], a, b, m) <==> m == Merge(a, b)
  {
    assert Unfold(MERGING, a);
    assert [] + Merge(a, b) == Merge(a, b);
  }

  lemma {:induction false} TakeLeft(out: seq<Entry>, a: seq<Entry>, b: seq<Entry>, m: seq<Entry>)
    requires Merging(out, a, b, m) && a != [] && (b == [] || Before(a[0], b[0]))
    ensures Merging(out + [a[0]], a[1..], b, m)
  {
    assert Unfold(MERGING, a);
    var rest := Merge(a[1..], b);
    assert Merge(a, b) == [a[0]] + rest;
    assert out + ([a[0]] + rest) == out + [a[0]] + rest;
  }

  lemma {:induction false} TakeRight(out: seq<Entry>, a: seq<Entry>, b: seq<Entry>, m: seq<Entry>)
    requires Merging(out, a, b, m) && b != [] && (a == [] || !Before(a[0], b[0]))
    ensures Merging(out + [b[0]], a, b[1..], m)
  {
    assert Unfold(MERGING, a);
    var rest := Merge(a, b[1..]);
    assert Merge(a, b) == [b[0]] + rest;
    assert out + ([b[0]] + rest) == out + [b[0]] + rest;
  }

  lemma {:induction false} MergingDone(out: seq<Entry>, a: seq<Entry>, b: seq<Entry>, m: seq<Entry>)
    requires Merging(out, a, b, m) && a == b == []
    ensures out == m
  {
    assert Unfold(MERGING, a);
  }

  lemma {:induction false} MergeSorts(a: seq<Entry>, b: seq<Entry>)
    requires Sorted(a) && Sorted(b)
    ensures Sorted(Merge(a, b))
    ensures multiset(Merge(a, b)) == multiset(a) + multiset(b)
  {
    if a != [] && b != [] {
      assert a == [a[0]] + a[1..] && b == [b[0]] + b[1..];
      AtMostIsTotalOrder(a[0], b[0]);
      AtMostIsTotalOrder(b[0], a[0]);
      if Before(a[0], b[0]) {
        MergeSorts(a[1..], b);
        PrependSorted(a[0], Merge(a[1..], b), a[1..], b);
      } else {
        MergeSorts(a, b[1..]);
        PrependSorted(b[0], Merge(a, b[1..]), b[1..], a);
      }
    }
  }

  /** `m` arranges `own` and `other`; `e` precedes both. */
  lemma {:induction false} PrependSorted(e: Entry, m: seq<Entry>, own: seq<Entry>, other: seq<Entry>)
    requires Sorted(m) && Sorted([e] + own) && Sorted(other) && other != [] && AtMost(e, other[0])
    requires multiset(m) == multiset(own) + multiset(other)
    ensures Sorted([e] + m)
  {
    forall i | 0 <= i < |m| ensures AtMost(e, m[i]) {
      assert m[i] in multiset(m);
      if m[i] in own {
        var k :| 0 <= k < |own| && own[k] == m[i];
        assert AtMost(([e] + own)[0], ([e] + own)[k + 1]);
      } else {
        assert m[i] in other;
        var k :| 0 <= k < |other| && other[k] == m[i];
        if k > 0 { AtMostTransitive(e, other[0], other[k]); }
      }
    }
  }

  /** The first entry of a ranking is the one `argmax` looks for. */
  lemma {:induction false} RankedHead(s: seq<Entry>, best: nat)
    requires best < |s|
    requires forall k :: 0 <= k < |s| ==> AtMost(s[best], s[k])
    ensures |Ranked(s)| == |s| && Ranked(s)[0] == s[best]
  {
    RankedSorts(s);
    var r := Ranked(s);
    assert r[0] in multiset(s) && s[best] in multiset(r);
    var k :| 0 <= k < |s| && s[k] == r[0];
    var j :| 0 <= j < |r| && r[j] == s[best];
    AtMostIsTotalOrder(r[0], r[j]);
    AtMostIsTotalOrder(r[0], s[best]);
    if j > 0 { assert AtMost(r[0], r[j]); }
  }
}
