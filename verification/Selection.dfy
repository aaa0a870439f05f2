/** Facts about selection sort on sequences of entries: what one round of selection does to
    a ranking, and which scores make `argmax` abort. */
module Selection {
  import opened Titles
  import opened Ranking

  function Negatives(s: seq<Entry>): nat {
    if s == [] then 0 else (if s[0].score < 0.0 then 1 else 0) + Negatives(s[1..])
  }

  lemma {:induction false} NegativesAppend(a: seq<Entry>, b: seq<Entry>)
    ensures Negatives(a + b) == Negatives(a) + Negatives(b)
  {
    if a == [] {
      assert a + b == b;
    } else {
      assert (a + b)[1..] == a[1..] + b;
      NegativesAppend(a[1..], b);
    }
  }

  /** `b` without its k-th entry. */
  function Without(b: seq<Entry>, k: nat): seq<Entry>
    requires k < |b|
  {
    b[..k] + b[k + 1..]
  }

  lemma {:induction false} WithoutMultiset(b: seq<Entry>, k: nat)
    requires k < |b|
    ensures multiset(Without(b, k)) == multiset(b) - multiset{b[k]}
  {
    assert b == b[..k] + ([b[k]] + b[k + 1..]);
  }

  lemma {:induction false} NegativesWithout(b: seq<Entry>, k: nat)
    requires k < |b|
    ensures Negatives(b) == Negatives([b[k]]) + Negatives(Without(b, k))
  {
    assert b == b[..k] + ([b[k]] + b[k + 1..]);
    NegativesAppend(b[..k], [b[k]] + b[k + 1..]);
    NegativesAppend([b[k]], b[k + 1..]);
    NegativesAppend(b[..k], b[k + 1..]);
  }

  lemma {:induction false} NegativesPermutation(a: seq<Entry>, b: seq<Entry>)
    requires multiset(a) == multiset(b)
    ensures Negatives(a) == Negatives(b)
  {
    assert |multiset(a)| == |multiset(b)|;
    if a != [] {
      assert a[0] in multiset(b);
      var k :| 0 <= k < |b| && b[k] == a[0];
      WithoutMultiset(a, 0);
      WithoutMultiset(b, k);
      NegativesWithout(a, 0);
      NegativesWithout(b, k);
      NegativesPermutation(Without(a, 0), Without(b, k));
    }
  }

  lemma {:induction false} AllNegative(s: seq<Entry>)
    requires forall k :: 0 <= k < |s| ==> s[k].score < 0.0
    ensures Negatives(s) == |s|
  {
    if s != [] { AllNegative(s[1..]); }
  }

  lemma {:induction false} NoNegative(s: seq<Entry>)
    requires forall k :: 0 <= k < |s| ==> s[k].score >= 0.0
    ensures Negatives(s) == 0
  {
    if s != [] { NoNegative(s[1..]); }
  }

  /** What `argmax` finds is the head of the ranking. */
  lemma {:induction false} HeadOfRanking(m: seq<Entry>, start: nat, end: nat, best: nat, r: seq<Entry>)
    requires start <= best < end <= |m| && RanksAs(m[start..end], r)
    requires forall k :: start <= k < end ==> AtMost(m[best], m[k])
    ensures |r| == end - start && r[0] == m[best]
  {
    var s := m[start..end];
    UnfoldRanking(s, r);
    assert s[best - start] == m[best];
    forall k | 0 <= k < |s| ensures AtMost(s[best - start], s[k]) {
      assert s[k] == m[start + k];
    }
    RankedHead(s, best - start);
  }

  /** One round of selection: the head of the ranking goes to the front, and the rest keeps
      the rest of the ranking. */
  lemma {:induction false} SelectionStep(s: seq<Entry>, best: nat, t: seq<Entry>, r: seq<Entry>)
    requires best < |s| == |t| && t[0] == s[best] && t[best] == s[0]
    requires forall k :: 0 < k < |s| && k != best ==> t[k] == s[k]
    requires RanksAs(s, r) && |r| == |s| && r[0] == s[best]
    ensures RanksAs(t[1..], r[1..])
  {
    UnfoldRanking(s, r);
    RankedSorts(s);
    SwapMultiset(s, best, t);
    TailMultiset(t);
    TailMultiset(r);
    SortedPermutationIsRanked(r[1..], t[1..]);
    UnfoldRanking(t[1..], r[1..]);
  }

  lemma {:induction false} SwapMultiset(s: seq<Entry>, best: nat, t: seq<Entry>)
    requires best < |s| == |t| && t[0] == s[best] && t[best] == s[0]
    requires forall k :: 0 < k < |s| && k != best ==> t[k] == s[k]
    ensures multiset(t) == multiset(s)
  {
    assert t == s[0 := s[best]][best := s[0]];
  }

  lemma {:induction false} TailMultiset(s: seq<Entry>)
    requires s != []
    ensures multiset(s[1..]) == multiset(s) - multiset{s[0]}
  {
    assert s == [s[0]] + s[1..];
  }

  lemma {:induction false} NegativesOfRanking(s: seq<Entry>, r: seq<Entry>)
    requires RanksAs(s, r)
    ensures Negatives(r) == Negatives(s)
  {
    UnfoldRanking(s, r);
    RankedSorts(s);
    NegativesPermutation(r, s);
  }

  /** `argmax` aborts on a run without a non-negative score. Over the whole sort that
      happens exactly when two scores are negative: first half. */
  lemma {:induction false} AbortMeansTwoNegatives(rest: seq<Entry>, r: seq<Entry>, i: nat)
    requires i <= |r| && RanksAs(rest, r[i..]) && |rest| >= 2
    requires !exists k :: 0 <= k < |rest| && rest[k].score >= 0.0
    ensures Negatives(r) >= 2
  {
    NegativesOfRanking(rest, r[i..]);
    NegativesAppend(r[..i], r[i..]);
    assert r == r[..i] + r[i..];
    AllNegative(rest);
  }

  /** Second half. */
  lemma {:induction false} NoAbortMeansOneNegative(s: seq<Entry>, r: seq<Entry>)
    requires s != [] && RanksAs(s, r) && |r| == |s|
    requires |r| >= 2 ==> r[|r| - 2].score >= 0.0
    ensures Negatives(s) <= 1
  {
    UnfoldRanking(s, r);
    RankedSorts(s);
    NegativesOfRanking(s, r);
    OneNegativeAtTheEnd(r);
  }

  lemma {:induction false} OneNegativeAtTheEnd(r: seq<Entry>)
    requires Sorted(r) && r != []
    requires |r| >= 2 ==> r[|r| - 2].score >= 0.0
    ensures Negatives(r) <= 1
  {
    var n := |r|;
    var front := r[..n - 1];
    assert r == front + [r[n - 1]];
    NegativesAppend(front, [r[n - 1]]);
    forall k | 0 <= k < |front| ensures front[k].score >= 0.0 {
      assert front[k] == r[k];
      if k < n - 2 { assert AtMost(r[k], r[n - 2]); }
    }
    NoNegative(front);
  }

  /** The last slot needs no search: what the loop leaves of the ranking is its entry. */
  lemma {:induction false} FinishSelection(key: Title, s: seq<Entry>, r: seq<Entry>, last: seq<Entry>, v: seq<Entry>)
    requires RanksAs(s, r) && r != [] && |v| == |r| && |last| == 1 && RanksAs(last, r[|r| - 1..])
    requires forall k :: 0 <= k < |r| - 1 ==> v[k] == Decorate(key, r[k])
    requires v[|r| - 1] == Decorate(key, last[0])
    ensures Finished(key, s, v)
  {
    UnfoldRanking(s, r);
    UnfoldRanking(last, r[|r| - 1..]);
    assert last[1..] == [];
    assert r[|r| - 1] == r[|r| - 1..][0];
  }
}
