/** What the recursion of `mergesort` leaves, for the trees of both builds, whatever bytes the
    titles hold; and exactly when that is the decorated ranking. */
module SortTree {
  import opened Titles
  import opened Ranking
  import opened Selection

  datatype Build = THREAD | PROCESS

  const MAX_LEVEL: nat := 4

  /** A range this short is sorted by the library in the THREAD build. */
  const SIZE_LIMIT := 1024

  /** The ranges that are not halved: by size in the THREAD build, by depth in the PROCESS build. */
  predicate IsLeaf(b: Build, level: nat, n: nat) {
    n == 0 || if b.THREAD? then n <= SIZE_LIMIT else level >= MAX_LEVEL
  }

  function Half(n: nat): nat { (n + 1) / 2 }

  /** How deep the recursion can still go. */
  function Depth(b: Build, level: nat, n: nat): nat {
    if b.THREAD? then n else if level < MAX_LEVEL then MAX_LEVEL - level else 0
  }

  /** The merge of two runs, on plain entries: it compares the titles with the key. */
  function MergeBy(key: Title, a: seq<Entry>, b: seq<Entry>): (r: seq<Entry>)
    ensures |r| == |a| + |b|
  {
    if a == [] then b
    else if b == [] then a
    else if Before(Decorate(key, a[0]), Decorate(key, b[0])) then [a[0]] + MergeBy(key, a[1..], b)
    else [b[0]] + MergeBy(key, a, b[1..])
  }

  /** The order in which the recursion leaves the entries of a range. */
  function Tree(key: Title, b: Build, level: nat, s: seq<Entry>): (r: seq<Entry>)
    ensures |r| == |s|
    decreases Depth(b, level, |s|)
  {
    if IsLeaf(b, level, |s|) then RankedSorts(s); Ranked(s)
    else MergeBy(key, Tree(key, b, level + 1, s[..Half(|s|)]), Tree(key, b, level + 1, s[Half(|s|)..]))
  }

  // What is left when some scores are negative

  /** Every range that the recursion hands to the library has at most one negative score, so
      that no `argmax` is aborted. */
  predicate EachLeafFine(b: Build, level: nat, s: seq<Entry>)
    decreases Depth(b, level, |s|)
  {
    if IsLeaf(b, level, |s|) then Negatives(s) <= 1
    else EachLeafFine(b, level + 1, s[..Half(|s|)]) && EachLeafFine(b, level + 1, s[Half(|s|)..])
  }

  /** Folded. */
  ghost predicate LeavesFine(b: Build, level: nat, s: seq<Entry>) {
    forall t {:trigger Unfold(LEAVES, t)} :: Unfold(LEAVES, t) && t == s ==> EachLeafFine(b, level, t)
  }

  lemma {:induction false} UnfoldLeaves(b: Build, level: nat, s: seq<Entry>)
    ensures LeavesFine(b, level, s) <==> EachLeafFine(b, level, s)
  {
    assert Unfold(LEAVES, s);
  }

  /** The process that entered this call comes back from it. An aborted `argmax` ends all threads,
      but of the forked processes only its own: that is the one that entered the call if the
      leaf is the last. */
  predicate Survives(b: Build, level: nat, s: seq<Entry>)
    decreases Depth(b, level, |s|)
  {
    if IsLeaf(b, level, |s|) then Negatives(s) <= 1
    else Survives(b, level + 1, s[Half(|s|)..]) && (b.THREAD? ==> Survives(b, level + 1, s[..Half(|s|)]))
  }

  /** What the call leaves in place of `s` when all its processes have ended: an aborted leaf is as
      it was, and the merges of an aborted process never happen. */
  function Result(key: Title, b: Build, level: nat, s: seq<Entry>): (r: seq<Entry>)
    ensures |r| == |s|
    decreases Depth(b, level, |s|)
  {
    if IsLeaf(b, level, |s|) then
      if Negatives(s) <= 1 then RankedSorts(s); DecorateAll(key, Ranked(s)) else s
    else
      var lo, hi := Result(key, b, level + 1, s[..Half(|s|)]), Result(key, b, level + 1, s[Half(|s|)..]);
      if Survives(b, level + 1, s[Half(|s|)..]) then Merge(lo, hi) else lo + hi
  }

  /** `mergesort` has come back and has left `v` in place of `s`. Folded. */
  ghost predicate Delivered(key: Title, b: Build, level: nat, s: seq<Entry>, v: seq<Entry>) {
    forall t {:trigger Unfold(RESULT, t)} ::
      Unfold(RESULT, t) && t == s ==> Survives(b, level, s) && v == Result(key, b, level, s) && |v| == |s|
  }

  /** The forked process was aborted, all that it had forked has ended, and `v` is left. Folded. */
  ghost predicate Abandoned(key: Title, b: Build, level: nat, s: seq<Entry>, v: seq<Entry>) {
    b.PROCESS? && forall t {:trigger Unfold(RESULT, t)} ::
      Unfold(RESULT, t) && t == s ==> !Survives(b, level, s) && v == Result(key, b, level, s) && |v| == |s|
  }

  ghost predicate Ended(key: Title, b: Build, level: nat, s: seq<Entry>, v: seq<Entry>) {
    Delivered(key, b, level, s, v) || Abandoned(key, b, level, s, v)
  }

  lemma {:induction false} UnfoldEnded(key: Title, b: Build, level: nat, s: seq<Entry>, v: seq<Entry>)
    ensures Delivered(key, b, level, s, v) <==> Survives(b, level, s) && v == Result(key, b, level, s)
    ensures Abandoned(key, b, level, s, v) <==> b.PROCESS? && !Survives(b, level, s) && v == Result(key, b, level, s)
  {
    assert Unfold(RESULT, s);
  }

  lemma {:induction false} LeafDelivers(key: Title, b: Build, level: nat, s: seq<Entry>, v: seq<Entry>)
    requires IsLeaf(b, level, |s|) && Negatives(s) <= 1 && Finished(key, s, v)
    ensures Delivered(key, b, level, s, v)
  {
    UnfoldEnded(key, b, level, s, v);
  }

  lemma {:induction false} LeafAbandoned(key: Title, level: nat, s: seq<Entry>)
    requires IsLeaf(PROCESS, level, |s|) && Negatives(s) >= 2
    ensures Abandoned(key, PROCESS, level, s, s)
  {
    UnfoldEnded(key, PROCESS, level, s, s);
  }

  /** The merge of what the two halves left is what the whole range is left with. */
  lemma {:induction false} NodeDelivers(key: Title, b: Build, level: nat, s: seq<Entry>, c: seq<Entry>,
                                        vs: seq<Entry>, vc: seq<Entry>, m: seq<Entry>)
    requires !IsLeaf(b, level, |s + c|) && |s| == Half(|s + c|)
    requires Ended(key, b, level + 1, s, vs) && Delivered(key, b, level + 1, c, vc) && Merging([], vs, vc, m)
    ensures Delivered(key, b, level, s + c, m)
  {
    UnfoldEnded(key, b, level + 1, s, vs);
    UnfoldEnded(key, b, level + 1, c, vc);
    UnfoldEnded(key, b, level, s + c, m);
    UnfoldMerging(vs, vc, m);
    assert (s + c)[..Half(|s + c|)] == s && (s + c)[Half(|s + c|)..] == c;
  }

  /** An aborted process merges nothing. */
  lemma {:induction false} NodeAbandoned(key: Title, level: nat, s: seq<Entry>, c: seq<Entry>,
                                         vs: seq<Entry>, vc: seq<Entry>)
    requires !IsLeaf(PROCESS, level, |s + c|) && |s| == Half(|s + c|)
    requires Ended(key, PROCESS, level + 1, s, vs) && Abandoned(key, PROCESS, level + 1, c, vc)
    ensures Abandoned(key, PROCESS, level, s + c, vs + vc)
  {
    UnfoldEnded(key, PROCESS, level + 1, s, vs);
    UnfoldEnded(key, PROCESS, level + 1, c, vc);
    UnfoldEnded(key, PROCESS, level, s + c, vs + vc);
    assert (s + c)[..Half(|s + c|)] == s && (s + c)[Half(|s + c|)..] == c;
  }

  lemma {:induction false} MergeDecorated(key: Title, a: seq<Entry>, b: seq<Entry>)
    ensures Merge(DecorateAll(key, a), DecorateAll(key, b)) == DecorateAll(key, MergeBy(key, a, b))
  {
    if a != [] && b != [] {
      var a', b' := DecorateAll(key, a), DecorateAll(key, b);
      assert a'[1..] == DecorateAll(key, a[1..]) && b'[1..] == DecorateAll(key, b[1..]);
      if Before(a'[0], b'[0]) { MergeDecorated(key, a[1..], b); } else { MergeDecorated(key, a, b[1..]); }
    }
  }

  // When the result is the ranking

  lemma {:induction false} HalvesShallower(b: Build, level: nat, n: nat)
    requires !IsLeaf(b, level, n)
    ensures Depth(b, level + 1, Half(n)) < Depth(b, level, n) && Depth(b, level + 1, n - Half(n)) < Depth(b, level, n)
  {
  }

  /** A merge of the rankings of a and b takes no two entries in the wrong order: no title of b
      inverts one of a, and a title of a inverts one of b only if a has that one too. */
  ghost predicate NoCross(key: Title, a: seq<Entry>, b: seq<Entry>) {
    forall x, y {:trigger Uncross(key, a, x, y)} :: x in a && y in b ==> Uncross(key, a, x, y)
  }

  predicate Uncross(key: Title, a: seq<Entry>, x: Entry, y: Entry) {
    x.score == y.score ==> !Inverts(key, x.title, y.title) && (Inverts(key, y.title, x.title) ==> y in a)
  }

  lemma {:induction false} InTail(s: seq<Entry>, e: Entry)
    requires s != []
    ensures e in s <==> e == s[0] || e in s[1..]
  {
    assert s == [s[0]] + s[1..];
  }

  /** At no merge of the recursion. */
  ghost predicate Uncrossed(key: Title, b: Build, level: nat, s: seq<Entry>)
    decreases Depth(b, level, |s|)
  {
    IsLeaf(b, level, |s|) ||
    var lo, hi := s[..Half(|s|)], s[Half(|s|)..];
    Uncrossed(key, b, level + 1, lo) && Uncrossed(key, b, level + 1, hi) && NoCross(key, lo, hi)
  }

  /** `t` is the tree's order of `s`. */
  ghost predicate Trees(key: Title, b: Build, level: nat, s: seq<Entry>, t: seq<Entry>) {
    t == Tree(key, b, level, s)
  }

  /** On sorted runs without crossings, comparing with the key is comparing without. */
  lemma {:induction false} MergeByIsMerge(key: Title, a: seq<Entry>, b: seq<Entry>)
    requires Sound(key) && Sorted(a) && Sorted(b) && NoCross(key, a, b)
    ensures MergeBy(key, a, b) == Merge(a, b)
  {
    if a != [] && b != [] {
      var x, y := a[0], b[0];
      HeadsAgree(key, a, b);
      if Before(x, y) {
        LeftTailNoCross(key, a, b);
        MergeByIsMerge(key, a[1..], b);
      } else {
        RightTailNoCross(key, a, b);
        MergeByIsMerge(key, a, b[1..]);
      }
    }
  }

  lemma {:induction false} HeadsAgree(key: Title, a: seq<Entry>, b: seq<Entry>)
    requires Sound(key) && Sorted(a) && Sorted(b) && NoCross(key, a, b) && a != [] && b != []
    ensures Before(Decorate(key, a[0]), Decorate(key, b[0])) <==> Before(a[0], b[0])
  {
    var x, y := a[0], b[0];
    assert Uncross(key, a, x, y);
    SecretKeepsOrderIff(key, x.title, y.title);
    if x.score == y.score && Inverts(key, y.title, x.title) {
      SortedHead(a, y);
      AtMostIsTotalOrder(x, y);
      PrefixFirst(y.title, x.title);
    }
  }

  lemma {:induction false} SortedHead(s: seq<Entry>, e: Entry)
    requires Sorted(s) && e in s
    ensures AtMost(s[0], e)
  {
    AtMostIsTotalOrder(s[0], s[0]);
    var k :| 0 <= k < |s| && s[k] == e;
    if k > 0 { assert AtMost(s[0], s[k]); }
  }

  /** A proper prefix sorts first. */
  lemma {:induction false} PrefixFirst(a: Title, b: Title)
    requires |a| < |b| && b[..|a|] == a
    ensures StrCmp(a, b) < 0 < StrCmp(b, a)
  {
    StrCmpSign(a, b);
    if a != [] {
      assert a[1..] == b[1..][..|a[1..]|];
      assert a[0] == b[..|a|][0];
      PrefixFirst(a[1..], b[1..]);
    }
  }

  lemma {:induction false} LeftTailNoCross(key: Title, a: seq<Entry>, b: seq<Entry>)
    requires Sorted(b) && NoCross(key, a, b) && a != [] && b != [] && Before(a[0], b[0])
    ensures NoCross(key, a[1..], b)
  {
    forall x, y {:trigger Uncross(key, a[1..], x, y)} | x in a[1..] && y in b ensures Uncross(key, a[1..], x, y) {
      InTail(a, x);
      InTail(a, y);
      assert Uncross(key, a, x, y);
      var k :| 0 <= k < |b| && b[k] == y;
      AtMostIsTotalOrder(b[0], b[0]);
      BeforeAtMost(a[0], b[0], b[k]);
      AtMostIsTotalOrder(y, a[0]);
      AtMostIsTotalOrder(y, y);
    }
  }

  lemma {:induction false} RightTailNoCross(key: Title, a: seq<Entry>, b: seq<Entry>)
    requires NoCross(key, a, b) && b != []
    ensures NoCross(key, a, b[1..])
  {
    forall x, y {:trigger Uncross(key, a, x, y)} | x in a && y in b[1..] ensures Uncross(key, a, x, y) {
      InTail(b, y);
    }
  }

  lemma {:induction false} BeforeAtMost(a: Entry, b: Entry, c: Entry)
    requires Before(a, b) && AtMost(b, c)
    ensures Before(a, c)
  {
    AtMostIsTotalOrder(c, a);
    if AtMost(c, a) {
      AtMostTransitive(b, c, a);
      AtMostIsTotalOrder(b, a);
    }
  }

  /** An entry that the key moves behind a later one also moves behind all between. */
  lemma {:induction false} InvertsBetween(key: Title, a: Title, b: Title, c: Title)
    requires Inverts(key, a, c) && StrCmp(a, b) < 0 && StrCmp(b, c) <= 0
    ensures Inverts(key, a, b)
  {
    StrCmpSign(a, b);
    StrCmpSign(b, c);
    if a == [] {
      assert c[0..] == c && b[0..] == b;
      StrCmpTransitive(b, c, key);
      StrCmpSign(b, key);
      StrCmpSign(c, key);
    } else {
      assert a[0] == c[..|a|][0] == c[0];
      assert b != [];
      InvertsTail(key, a, c);
      InvertsTail(key, a, b);
      InvertsBetween(key, a[1..], b[1..], c[1..]);
    }
  }

  lemma {:induction false} MergeByMultiset(key: Title, a: seq<Entry>, b: seq<Entry>)
    ensures multiset(MergeBy(key, a, b)) == multiset(a) + multiset(b)
  {
    if a != [] && b != [] {
      assert a == [a[0]] + a[1..] && b == [b[0]] + b[1..];
      if Before(Decorate(key, a[0]), Decorate(key, b[0])) {
        MergeByMultiset(key, a[1..], b);
      } else {
        MergeByMultiset(key, a, b[1..]);
      }
    }
  }

  /** The recursion, one level down. */
  lemma {:induction false} TreeNode(key: Title, b: Build, level: nat, lo: seq<Entry>, hi: seq<Entry>, t: seq<Entry>)
    returns (tlo: seq<Entry>, thi: seq<Entry>)
    requires !IsLeaf(b, level, |lo + hi|) && |lo| == Half(|lo + hi|) && Trees(key, b, level, lo + hi, t)
    ensures Trees(key, b, level + 1, lo, tlo) && Trees(key, b, level + 1, hi, thi) && t == MergeBy(key, tlo, thi)
    ensures Depth(b, level + 1, |lo|) < Depth(b, level, |lo + hi|) && Depth(b, level + 1, |hi|) < Depth(b, level, |lo + hi|)
  {
    assert (lo + hi)[..Half(|lo + hi|)] == lo && (lo + hi)[Half(|lo + hi|)..] == hi;
    HalvesShallower(b, level, |lo + hi|);
    tlo, thi := Tree(key, b, level + 1, lo), Tree(key, b, level + 1, hi);
  }

  lemma {:induction false} UncrossedNode(key: Title, b: Build, level: nat, lo: seq<Entry>, hi: seq<Entry>)
    requires !IsLeaf(b, level, |lo + hi|) && |lo| == Half(|lo + hi|)
    ensures Uncrossed(key, b, level, lo + hi)
      <==> Uncrossed(key, b, level + 1, lo) && Uncrossed(key, b, level + 1, hi) && NoCross(key, lo, hi)
  {
    assert (lo + hi)[..Half(|lo + hi|)] == lo && (lo + hi)[Half(|lo + hi|)..] == hi;
  }

  lemma {:induction false} TreeLeaf(key: Title, b: Build, level: nat, s: seq<Entry>, t: seq<Entry>)
    requires IsLeaf(b, level, |s|) && Trees(key, b, level, s, t)
    ensures t == Ranked(s)
  {
  }

  /** A range that is not a leaf is its two halves. */
  lemma {:induction false} Halves(b: Build, level: nat, s: seq<Entry>) returns (lo: seq<Entry>, hi: seq<Entry>)
    requires !IsLeaf(b, level, |s|)
    ensures s == lo + hi && |lo| == Half(|s|)
  {
    lo, hi := s[..Half(|s|)], s[Half(|s|)..];
  }

  /** The same entries, each as often. */
  ghost predicate Permutes(s: seq<Entry>, t: seq<Entry>) {
    multiset(s) == multiset(t)
  }

  lemma {:induction false} TreePermutes(key: Title, b: Build, level: nat, s: seq<Entry>, t: seq<Entry>)
    requires Trees(key, b, level, s, t)
    ensures Permutes(t, s)
    decreases Depth(b, level, |s|)
  {
    if IsLeaf(b, level, |s|) {
      TreeLeaf(key, b, level, s, t);
      RankedSorts(s);
    } else {
      var lo, hi := Halves(b, level, s);
      var tlo, thi := TreeNode(key, b, level, lo, hi, t);
      TreePermutes(key, b, level + 1, lo, tlo);
      TreePermutes(key, b, level + 1, hi, thi);
      MergePermutes(key, lo, hi, tlo, thi);
    }
  }

  lemma {:induction false} MergePermutes(key: Title, lo: seq<Entry>, hi: seq<Entry>, tlo: seq<Entry>, thi: seq<Entry>)
    requires Permutes(tlo, lo) && Permutes(thi, hi)
    ensures Permutes(MergeBy(key, tlo, thi), lo + hi)
  {
    MergeByMultiset(key, tlo, thi);
  }

  /** If a merge comes out sorted, its runs were sorted. */
  lemma {:induction false} SortedMergeOfSorted(key: Title, a: seq<Entry>, b: seq<Entry>)
    requires Sorted(MergeBy(key, a, b))
    ensures Sorted(a) && Sorted(b)
  {
    if a != [] && b != [] {
      var m := MergeBy(key, a, b);
      if Before(Decorate(key, a[0]), Decorate(key, b[0])) {
        assert m[1..] == MergeBy(key, a[1..], b);
        SortedMergeOfSorted(key, a[1..], b);
        HeadFirst(key, a[1..], b, m, a);
      } else {
        assert m[1..] == MergeBy(key, a, b[1..]);
        SortedMergeOfSorted(key, a, b[1..]);
        HeadFirst(key, a, b[1..], m, b);
      }
    }
  }

  /** `run` begins with the first entry of the sorted merge m, and its rest is in the rest of m. */
  lemma {:induction false} HeadFirst(key: Title, a: seq<Entry>, b: seq<Entry>, m: seq<Entry>, run: seq<Entry>)
    requires Sorted(m) && m != [] && m[1..] == MergeBy(key, a, b) && run != [] && run[0] == m[0]
    requires Sorted(run[1..]) && (run[1..] == a || run[1..] == b)
    ensures Sorted(run)
  {
    MergeByMultiset(key, a, b);
    forall i | 0 < i < |run| ensures AtMost(run[0], run[i]) { InMerge(key, a, b, m, run[1..][i - 1]); }
    forall i, j | 0 <= i < j < |run| ensures AtMost(run[i], run[j]) {
      if i > 0 { assert AtMost(run[1..][i - 1], run[1..][j - 1]); }
    }
  }

  lemma {:induction false} InMerge(key: Title, a: seq<Entry>, b: seq<Entry>, m: seq<Entry>, e: Entry)
    requires Sorted(m) && m != [] && m[1..] == MergeBy(key, a, b) && (e in a || e in b)
    ensures AtMost(m[0], e)
  {
    MergeByMultiset(key, a, b);
    assert e in multiset(a) + multiset(b);
    assert e in multiset(m[1..]);
    var k :| 0 <= k < |m[1..]| && m[1..][k] == e;
    assert AtMost(m[0], m[k + 1]);
  }

  /** If a merge comes out sorted, nothing crossed. */
  lemma {:induction false} SortedMergeUncrossed(key: Title, a: seq<Entry>, b: seq<Entry>)
    requires Sound(key) && Sorted(a) && Sorted(b) && Sorted(MergeBy(key, a, b))
    ensures NoCross(key, a, b)
  {
    if a != [] && b != [] {
      var m := MergeBy(key, a, b);
      if Before(Decorate(key, a[0]), Decorate(key, b[0])) {
        assert m[1..] == MergeBy(key, a[1..], b);
        SortedMergeUncrossed(key, a[1..], b);
        LeftTaken(key, a, b, m);
      } else {
        assert m[1..] == MergeBy(key, a, b[1..]);
        SortedMergeUncrossed(key, a, b[1..]);
        RightTaken(key, a, b, m);
      }
    }
  }

  lemma {:induction false} LeftTaken(key: Title, a: seq<Entry>, b: seq<Entry>, m: seq<Entry>)
    requires Sound(key) && Sorted(b) && a != [] && b != [] && Before(Decorate(key, a[0]), Decorate(key, b[0]))
    requires Sorted(m) && m != [] && m[0] == a[0] && m[1..] == MergeBy(key, a[1..], b)
    requires NoCross(key, a[1..], b)
    ensures NoCross(key, a, b)
  {
    forall x, y {:trigger Uncross(key, a, x, y)} | x in a && y in b ensures Uncross(key, a, x, y) {
      InTail(a, x);
      InTail(a, y);
      if x != a[0] {
        assert Uncross(key, a[1..], x, y);
      } else if x.score == y.score {
        InMerge(key, a[1..], b, m, y);
        InMerge(key, a[1..], b, m, b[0]);
        LeftHeadUncrossed(key, x, b, y);
      }
    }
  }

  lemma {:induction false} LeftHeadUncrossed(key: Title, x: Entry, b: seq<Entry>, y: Entry)
    requires Sound(key) && Sorted(b) && b != [] && y in b && x.score == y.score && AtMost(x, y) && AtMost(x, b[0])
    requires Before(Decorate(key, x), Decorate(key, b[0]))
    ensures !Inverts(key, x.title, y.title) && !Inverts(key, y.title, x.title)
  {
    var h := b[0];
    if Inverts(key, y.title, x.title) { PrefixFirst(y.title, x.title); }
    if Inverts(key, x.title, y.title) {
      var k :| 0 <= k < |b| && b[k] == y;
      AtMostIsTotalOrder(h, h);
      assert AtMost(h, y);
      StrCmpSign(x.title, h.title);
      StrCmpSign(AddSecret(key, x.title), AddSecret(key, h.title));
      InvertsBetween(key, x.title, h.title, y.title);
      InvertedOrder(key, x.title, h.title);
    }
  }

  lemma {:induction false} RightTaken(key: Title, a: seq<Entry>, b: seq<Entry>, m: seq<Entry>)
    requires Sound(key) && Sorted(a) && a != [] && b != [] && !Before(Decorate(key, a[0]), Decorate(key, b[0]))
    requires Sorted(m) && m != [] && m[0] == b[0] && m[1..] == MergeBy(key, a, b[1..])
    requires NoCross(key, a, b[1..])
    ensures NoCross(key, a, b)
  {
    forall x, y {:trigger Uncross(key, a, x, y)} | x in a && y in b ensures Uncross(key, a, x, y) {
      InTail(b, y);
      if y != b[0] {
        assert Uncross(key, a, x, y);
      } else if x.score == y.score {
        InMerge(key, a, b[1..], m, x);
        InMerge(key, a, b[1..], m, a[0]);
        RightHeadUncrossed(key, a, y, x);
      }
    }
  }

  lemma {:induction false} RightHeadUncrossed(key: Title, a: seq<Entry>, y: Entry, x: Entry)
    requires Sound(key) && Sorted(a) && a != [] && x in a && x.score == y.score && AtMost(y, x) && AtMost(y, a[0])
    requires !Before(Decorate(key, a[0]), Decorate(key, y))
    ensures !Inverts(key, x.title, y.title) && (Inverts(key, y.title, x.title) ==> y in a)
  {
    var h := a[0];
    if Inverts(key, x.title, y.title) { PrefixFirst(x.title, y.title); }
    if Inverts(key, y.title, x.title) && h != y {
      var k :| 0 <= k < |a| && a[k] == x;
      AtMostIsTotalOrder(h, h);
      assert AtMost(h, x);
      StrCmpSign(y.title, h.title);
      InvertsBetween(key, y.title, h.title, x.title);
      InvertedOrder(key, y.title, h.title);
      StrCmpSign(AddSecret(key, y.title), AddSecret(key, h.title));
    }
  }

  /** Inverted titles do change places. */
  lemma {:induction false} InvertedOrder(key: Title, a: Title, b: Title)
    requires Sound(key) && Inverts(key, a, b)
    ensures StrCmp(AddSecret(key, a), AddSecret(key, b)) > 0
  {
    PrefixFirst(a, b);
    SecretKeepsOrderIff(key, a, b);
    StrCmpSign(a, b);
    StrCmpSign(AddSecret(key, a), AddSecret(key, b));
  }

  lemma {:induction false} SameMembers(s: seq<Entry>, t: seq<Entry>)
    requires multiset(s) == multiset(t)
    ensures forall e :: e in s <==> e in t
  {
    forall e ensures e in s <==> e in t {
      assert e in s <==> e in multiset(s);
      assert e in t <==> e in multiset(t);
    }
  }

  /** The recursion of either build leaves the ranking by plain titles if and only if nothing
      crosses at any of its merges. */
  lemma {:induction false} TreeRanksIff(key: Title, b: Build, level: nat, s: seq<Entry>)
    requires Sound(key)
    ensures Tree(key, b, level, s) == Ranked(s) <==> Uncrossed(key, b, level, s)
  {
    TreesRankIff(key, b, level, s, Tree(key, b, level, s));
  }

  lemma {:induction false} TreesRankIff(key: Title, b: Build, level: nat, s: seq<Entry>, t: seq<Entry>)
    requires Sound(key) && Trees(key, b, level, s, t)
    ensures t == Ranked(s) <==> Uncrossed(key, b, level, s)
    decreases Depth(b, level, |s|)
  {
    if IsLeaf(b, level, |s|) {
      TreeLeaf(key, b, level, s, t);
    } else {
      var lo, hi := Halves(b, level, s);
      var tlo, thi := TreeNode(key, b, level, lo, hi, t);
      TreesRankIff(key, b, level + 1, lo, tlo);
      TreesRankIff(key, b, level + 1, hi, thi);
      TreePermutes(key, b, level + 1, lo, tlo);
      TreePermutes(key, b, level + 1, hi, thi);
      UncrossedNode(key, b, level, lo, hi);
      MergeRanksIff(key, lo, hi, tlo, thi);
    }
  }

  /** One merge leaves the ranking if and only if both halves were ranked and nothing crosses. */
  lemma {:induction false} MergeRanksIff(key: Title, lo: seq<Entry>, hi: seq<Entry>, tlo: seq<Entry>, thi: seq<Entry>)
    requires Sound(key) && Permutes(tlo, lo) && Permutes(thi, hi)
    ensures MergeBy(key, tlo, thi) == Ranked(lo + hi)
      <==> tlo == Ranked(lo) && thi == Ranked(hi) && NoCross(key, lo, hi)
  {
    NoCrossPermutes(key, lo, hi, tlo, thi);
    if tlo == Ranked(lo) && thi == Ranked(hi) && NoCross(key, lo, hi) { UncrossedRanks(key, lo, hi); }
    if MergeBy(key, tlo, thi) == Ranked(lo + hi) { RankedUncrossed(key, lo, hi, tlo, thi); }
  }

  lemma {:induction false} NoCrossPermutes(key: Title, lo: seq<Entry>, hi: seq<Entry>, tlo: seq<Entry>, thi: seq<Entry>)
    requires multiset(tlo) == multiset(lo) && multiset(thi) == multiset(hi)
    ensures NoCross(key, lo, hi) <==> NoCross(key, tlo, thi)
  {
    SameMembers(lo, tlo);
    SameMembers(hi, thi);
    assert forall x, y {:trigger Uncross(key, lo, x, y)} {:trigger Uncross(key, tlo, x, y)} ::
      Uncross(key, lo, x, y) <==> Uncross(key, tlo, x, y);
  }

  lemma {:induction false} UncrossedRanks(key: Title, lo: seq<Entry>, hi: seq<Entry>)
    requires Sound(key) && NoCross(key, Ranked(lo), Ranked(hi))
    ensures MergeBy(key, Ranked(lo), Ranked(hi)) == Ranked(lo + hi)
  {
    RankedSorts(lo);
    RankedSorts(hi);
    MergeByIsMerge(key, Ranked(lo), Ranked(hi));
    MergeSorts(Ranked(lo), Ranked(hi));
    SortedPermutationIsRanked(Merge(Ranked(lo), Ranked(hi)), lo + hi);
  }

  lemma {:induction false} RankedUncrossed(key: Title, lo: seq<Entry>, hi: seq<Entry>, tlo: seq<Entry>, thi: seq<Entry>)
    requires Sound(key) && multiset(tlo) == multiset(lo) && multiset(thi) == multiset(hi)
    requires MergeBy(key, tlo, thi) == Ranked(lo + hi)
    ensures tlo == Ranked(lo) && thi == Ranked(hi) && NoCross(key, tlo, thi)
  {
    RankedSorts(lo + hi);
    SortedMergeOfSorted(key, tlo, thi);
    SortedMergeUncrossed(key, tlo, thi);
    SortedPermutationIsRanked(tlo, lo);
    SortedPermutationIsRanked(thi, hi);
  }

  // Exactly when nothing is aborted

  /** The server ends by `argmax` in the THREAD build if any leaf holds two negative scores. */
  lemma {:induction false} ThreadsSurviveIff(level: nat, s: seq<Entry>)
    ensures Survives(THREAD, level, s) <==> LeavesFine(THREAD, level, s)
    decreases |s|
  {
    if IsLeaf(THREAD, level, |s|) {
      UnfoldLeaves(THREAD, level, s);
    } else {
      var lo, hi := Halves(THREAD, level, s);
      ThreadsSurviveIff(level + 1, lo);
      ThreadsSurviveIff(level + 1, hi);
      NodeFine(THREAD, level, lo, hi);
      assert lo == s[..Half(|s|)] && hi == s[Half(|s|)..];
    }
  }

  /** In the PROCESS build it ends so if and only if its own leaf, the last sixteenth of the movies,
      holds two; so never on fewer than thirty-two movies. */
  lemma {:induction false} ProcessSurvivesIff(s: seq<Entry>)
    ensures Survives(PROCESS, 0, s) <==> Negatives(s[|s| - |s| / 16..]) <= 1
  {
    LastLeafSurvives(0, s);
    LastSixteenth(s);
  }

  /** The leaf that the process which entered the call sorts itself. */
  function LastLeaf(level: nat, s: seq<Entry>): seq<Entry>
    decreases Depth(PROCESS, level, |s|)
  {
    if level >= MAX_LEVEL then s else LastLeaf(level + 1, s[Half(|s|)..])
  }

  lemma {:induction false} LastLeafEmpty(level: nat)
    ensures LastLeaf(level, []) == []
    decreases Depth(PROCESS, level, 0)
  {
    if level < MAX_LEVEL { LastLeafEmpty(level + 1); }
  }

  lemma {:induction false} LastSixteenth(s: seq<Entry>)
    ensures LastLeaf(0, s) == s[|s| - |s| / 16..]
  {
    var a := s[Half(|s|)..];
    var b := a[Half(|a|)..];
    var c := b[Half(|b|)..];
    var d := c[Half(|c|)..];
    assert |a| == |s| / 2 && |b| == |s| / 4 && |c| == |s| / 8 && |d| == |s| / 16;
    assert LastLeaf(0, s) == LastLeaf(1, a) == LastLeaf(2, b) == LastLeaf(3, c) == LastLeaf(4, d) == d;
    assert d == s[|s| - |s| / 16..];
  }

  lemma {:induction false} LastLeafSurvives(level: nat, s: seq<Entry>)
    ensures Survives(PROCESS, level, s) <==> Negatives(LastLeaf(level, s)) <= 1
    decreases Depth(PROCESS, level, |s|)
  {
    if level < MAX_LEVEL {
      LastLeafSurvives(level + 1, s[Half(|s|)..]);
      if s == [] { assert s[Half(|s|)..] == []; }
    }
  }

  lemma {:induction false} NodeResult(key: Title, b: Build, level: nat, lo: seq<Entry>, hi: seq<Entry>)
    requires !IsLeaf(b, level, |lo + hi|) && |lo| == Half(|lo + hi|)
    requires Survives(b, level + 1, lo) && Survives(b, level + 1, hi)
    ensures Survives(b, level, lo + hi)
    ensures Result(key, b, level, lo + hi) == Merge(Result(key, b, level + 1, lo), Result(key, b, level + 1, hi))
  {
    assert (lo + hi)[..Half(|lo + hi|)] == lo && (lo + hi)[Half(|lo + hi|)..] == hi;
  }

  /** Without aborts the result is the tree's order, with one key each. */
  lemma {:induction false} FineResult(key: Title, b: Build, level: nat, s: seq<Entry>, t: seq<Entry>)
    requires Trees(key, b, level, s, t) && LeavesFine(b, level, s)
    ensures Survives(b, level, s) && Result(key, b, level, s) == DecorateAll(key, t)
    decreases Depth(b, level, |s|)
  {
    if IsLeaf(b, level, |s|) {
      FineLeaf(key, b, level, s, t);
    } else {
      var lo, hi := Halves(b, level, s);
      var tlo, thi := TreeNode(key, b, level, lo, hi, t);
      NodeFine(b, level, lo, hi);
      FineResult(key, b, level + 1, lo, tlo);
      FineResult(key, b, level + 1, hi, thi);
      FineNode(key, b, level, lo, hi, tlo, thi);
    }
  }

  lemma {:induction false} FineLeaf(key: Title, b: Build, level: nat, s: seq<Entry>, t: seq<Entry>)
    requires IsLeaf(b, level, |s|) && Trees(key, b, level, s, t) && LeavesFine(b, level, s)
    ensures Survives(b, level, s) && Result(key, b, level, s) == DecorateAll(key, t)
  {
    UnfoldLeaves(b, level, s);
    TreeLeaf(key, b, level, s, t);
  }

  lemma {:induction false} FineNode(key: Title, b: Build, level: nat, lo: seq<Entry>, hi: seq<Entry>,
                                    tlo: seq<Entry>, thi: seq<Entry>)
    requires !IsLeaf(b, level, |lo + hi|) && |lo| == Half(|lo + hi|)
    requires Survives(b, level + 1, lo) && Result(key, b, level + 1, lo) == DecorateAll(key, tlo)
    requires Survives(b, level + 1, hi) && Result(key, b, level + 1, hi) == DecorateAll(key, thi)
    ensures Survives(b, level, lo + hi)
    ensures Result(key, b, level, lo + hi) == DecorateAll(key, MergeBy(key, tlo, thi))
  {
    MergeDecorated(key, tlo, thi);
    NodeResult(key, b, level, lo, hi);
  }

  lemma {:induction false} FineSurvives(b: Build, level: nat, s: seq<Entry>)
    requires LeavesFine(b, level, s)
    ensures Survives(b, level, s)
  {
    FineResult([], b, level, s, Tree([], b, level, s));
  }

  /** The bytes of all titles, `k` more for each. */
  function Bytes(k: nat, s: seq<Entry>): nat {
    if s == [] then 0 else |s[0].title| + k + Bytes(k, s[1..])
  }

  lemma {:induction false} BytesAppend(k: nat, a: seq<Entry>, b: seq<Entry>)
    ensures Bytes(k, a + b) == Bytes(k, a) + Bytes(k, b)
  {
    if a == [] {
      assert a + b == b;
    } else {
      assert (a + b)[1..] == a[1..] + b;
      BytesAppend(k, a[1..], b);
    }
  }

  lemma {:induction false} BytesMerge(k: nat, a: seq<Entry>, b: seq<Entry>)
    ensures Bytes(k, Merge(a, b)) == Bytes(k, a) + Bytes(k, b)
  {
    if a != [] && b != [] {
      if Before(a[0], b[0]) { BytesMerge(k, a[1..], b); } else { BytesMerge(k, a, b[1..]); }
    }
  }

  lemma {:induction false} BytesInsert(k: nat, e: Entry, s: seq<Entry>)
    ensures Bytes(k, Insert(e, s)) == |e.title| + k + Bytes(k, s)
  {
    if s != [] && !AtMost(e, s[0]) { BytesInsert(k, e, s[1..]); } else { assert ([e] + s)[1..] == s; }
  }

  lemma {:induction false} BytesRanked(k: nat, s: seq<Entry>)
    ensures Bytes(k, Ranked(s)) == Bytes(k, s)
  {
    if s != [] {
      BytesRanked(k, s[1..]);
      BytesInsert(k, s[0], Ranked(s[1..]));
    }
  }

  lemma {:induction false} BytesDecorated(key: Title, s: seq<Entry>)
    ensures Bytes(0, DecorateAll(key, s)) == Bytes(|key|, s)
  {
    if s != [] {
      assert DecorateAll(key, s)[1..] == DecorateAll(key, s[1..]);
      BytesDecorated(key, s[1..]);
    }
  }

  lemma {:induction false} BytesMore(k: nat, s: seq<Entry>)
    ensures Bytes(0, s) <= Bytes(k, s)
    ensures k > 0 && s != [] ==> Bytes(0, s) < Bytes(k, s)
  {
    if s != [] { BytesMore(k, s[1..]); }
  }

  /** No title has more than one key, and none lacks it if the leaves are fine. */
  ghost predicate Keyed(key: Title, b: Build, level: nat, s: seq<Entry>) {
    var n := Bytes(0, Result(key, b, level, s));
    n <= Bytes(|key|, s) && (key != [] && n == Bytes(|key|, s) ==> LeavesFine(b, level, s))
  }

  /** An aborted leaf leaves keys missing. */
  lemma {:induction false} ResultKeyed(key: Title, b: Build, level: nat, s: seq<Entry>)
    ensures Keyed(key, b, level, s)
    decreases Depth(b, level, |s|)
  {
    if IsLeaf(b, level, |s|) {
      LeafKeyed(key, b, level, s);
    } else {
      var lo, hi := Halves(b, level, s);
      HalvesShallower(b, level, |s|);
      ResultKeyed(key, b, level + 1, lo);
      ResultKeyed(key, b, level + 1, hi);
      NodeKeyed(key, b, level, lo, hi);
    }
  }

  lemma {:induction false} NodeKeyed(key: Title, b: Build, level: nat, lo: seq<Entry>, hi: seq<Entry>)
    requires !IsLeaf(b, level, |lo + hi|) && |lo| == Half(|lo + hi|)
    requires Keyed(key, b, level + 1, lo) && Keyed(key, b, level + 1, hi)
    ensures Keyed(key, b, level, lo + hi)
  {
    BytesAppend(|key|, lo, hi);
    NodeBytes(key, b, level, lo, hi);
    NodeFine(b, level, lo, hi);
  }

  lemma {:induction false} LeafKeyed(key: Title, b: Build, level: nat, s: seq<Entry>)
    requires IsLeaf(b, level, |s|)
    ensures Keyed(key, b, level, s)
  {
    UnfoldLeaves(b, level, s);
    BytesDecorated(key, Ranked(s));
    BytesRanked(|key|, s);
    BytesMore(|key|, s);
  }

  lemma {:induction false} NodeFine(b: Build, level: nat, lo: seq<Entry>, hi: seq<Entry>)
    requires !IsLeaf(b, level, |lo + hi|) && |lo| == Half(|lo + hi|)
    ensures LeavesFine(b, level, lo + hi) <==> LeavesFine(b, level + 1, lo) && LeavesFine(b, level + 1, hi)
  {
    UnfoldLeaves(b, level, lo + hi);
    UnfoldLeaves(b, level + 1, lo);
    UnfoldLeaves(b, level + 1, hi);
    assert (lo + hi)[..Half(|lo + hi|)] == lo && (lo + hi)[Half(|lo + hi|)..] == hi;
  }

  /** Whether or not the halves are merged. */
  lemma {:induction false} NodeBytes(key: Title, b: Build, level: nat, lo: seq<Entry>, hi: seq<Entry>)
    requires !IsLeaf(b, level, |lo + hi|) && |lo| == Half(|lo + hi|)
    ensures Bytes(0, Result(key, b, level, lo + hi))
      == Bytes(0, Result(key, b, level + 1, lo)) + Bytes(0, Result(key, b, level + 1, hi))
  {
    var vlo, vhi := Result(key, b, level + 1, lo), Result(key, b, level + 1, hi);
    BytesMerge(0, vlo, vhi);
    BytesAppend(0, vlo, vhi);
    assert (lo + hi)[..Half(|lo + hi|)] == lo && (lo + hi)[Half(|lo + hi|)..] == hi;
  }

  lemma {:induction false} BytesPermute(k: nat, s: seq<Entry>, t: seq<Entry>)
    requires multiset(s) == multiset(t)
    ensures Bytes(k, s) == Bytes(k, t)
  {
    RankedSorts(s);
    RankedSorts(t);
    SortedUnique(Ranked(s), Ranked(t));
    BytesRanked(k, s);
    BytesRanked(k, t);
  }

  /** All movies are listed with their keys only if no leaf was aborted. */
  lemma {:induction false} KeysMeanFine(key: Title, b: Build, level: nat, s: seq<Entry>, t: seq<Entry>)
    requires key != [] && multiset(t) == multiset(s)
    requires Bytes(0, Result(key, b, level, s)) == Bytes(0, DecorateAll(key, t))
    ensures LeavesFine(b, level, s)
  {
    BytesDecorated(key, t);
    BytesPermute(|key|, s, t);
    ResultKeyed(key, b, level, s);
  }

  /** The result is the ranking by plain titles, one key each, if and only if no leaf holds two
      negative scores and nothing crosses at a merge. */
  lemma {:induction false} ResultRanksIff(key: Title, b: Build, level: nat, s: seq<Entry>)
    requires Sound(key) && (key != [] || LeavesFine(b, level, s))
    ensures Result(key, b, level, s) == DecorateAll(key, Ranked(s))
      <==> LeavesFine(b, level, s) && Uncrossed(key, b, level, s)
  {
    var t := Tree(key, b, level, s);
    RankedSorts(s);
    TreesRankIff(key, b, level, s, t);
    if key != [] && Result(key, b, level, s) == DecorateAll(key, Ranked(s)) { KeysMeanFine(key, b, level, s, Ranked(s)); }
    if LeavesFine(b, level, s) {
      FineResult(key, b, level, s, t);
      if DecorateAll(key, t) == DecorateAll(key, Ranked(s)) { DecoratedEqual(key, t, Ranked(s)); }
    }
  }

  /** It is the tree's order if and only if no leaf holds two negative scores. */
  lemma {:induction false} ResultIsTreeIff(key: Title, b: Build, level: nat, s: seq<Entry>)
    requires key != [] || LeavesFine(b, level, s)
    ensures Result(key, b, level, s) == DecorateAll(key, Tree(key, b, level, s)) <==> LeavesFine(b, level, s)
  {
    var t := Tree(key, b, level, s);
    if LeavesFine(b, level, s) {
      FineResult(key, b, level, s, t);
    } else if Result(key, b, level, s) == DecorateAll(key, t) {
      TreePermutes(key, b, level, s, t);
      KeysMeanFine(key, b, level, s, t);
    }
  }

  /** The THREAD build comes back from fine leaves only. */
  lemma {:induction false} ThreadsDeliver(key: Title, s: seq<Entry>, v: seq<Entry>)
    requires Delivered(key, THREAD, 0, s, v)
    ensures v == DecorateAll(key, Tree(key, THREAD, 0, s))
  {
    UnfoldEnded(key, THREAD, 0, s, v);
    ThreadsSurviveIff(0, s);
    ResultIsTreeIff(key, THREAD, 0, s);
  }

  lemma {:induction false} DecoratedEqual(key: Title, a: seq<Entry>, b: seq<Entry>)
    requires DecorateAll(key, a) == DecorateAll(key, b)
    ensures a == b
  {
    assert |a| == |DecorateAll(key, a)| == |b|;
    forall i | 0 <= i < |a| ensures a[i] == b[i] {
      assert DecorateAll(key, a)[i] == DecorateAll(key, b)[i];
      DecorateInjective(key, a[i], b[i]);
    }
  }

  /** Non-negative scores never abort anything, in either build. */
  lemma {:induction false} NonNegativeLeaves(b: Build, level: nat, s: seq<Entry>)
    requires forall k :: 0 <= k < |s| ==> s[k].score >= 0.0
    ensures LeavesFine(b, level, s)
    decreases Depth(b, level, |s|)
  {
    if IsLeaf(b, level, |s|) {
      UnfoldLeaves(b, level, s);
      NoNegative(s);
    } else {
      var lo, hi := Halves(b, level, s);
      HalvesShallower(b, level, |s|);
      assert forall k :: 0 <= k < |lo| ==> s[k] == lo[k];
      assert forall k :: 0 <= k < |hi| ==> s[|lo| + k] == hi[k];
      NonNegativeLeaves(b, level + 1, lo);
      NonNegativeLeaves(b, level + 1, hi);
      NodeFine(b, level, lo, hi);
    }
  }

  /** A request that the library sorts at once has no abort in the PROCESS build if it has none in
      the THREAD build. */
  lemma {:induction false} FewNegatives(level: nat, s: seq<Entry>)
    requires Negatives(s) <= 1
    ensures LeavesFine(PROCESS, level, s)
    decreases Depth(PROCESS, level, |s|)
  {
    if IsLeaf(PROCESS, level, |s|) {
      UnfoldLeaves(PROCESS, level, s);
    } else {
      var lo, hi := Halves(PROCESS, level, s);
      NegativesAppend(lo, hi);
      FewNegatives(level + 1, lo);
      FewNegatives(level + 1, hi);
      NodeFine(PROCESS, level, lo, hi);
    }
  }

  // Scores

  predicate ByScore(s: seq<Entry>) {
    forall i, j :: 0 <= i < j < |s| ==> s[i].score >= s[j].score
  }

  /** The key never disturbs the order of scores. */
  lemma {:induction false} MergeByScore(key: Title, a: seq<Entry>, b: seq<Entry>)
    requires ByScore(a) && ByScore(b)
    ensures ByScore(MergeBy(key, a, b))
  {
    if a != [] && b != [] {
      if Before(Decorate(key, a[0]), Decorate(key, b[0])) {
        MergeByScore(key, a[1..], b);
        ScoreFirst(key, a[1..], b, a[0]);
      } else {
        MergeByScore(key, a, b[1..]);
        ScoreFirst(key, a, b[1..], b[0]);
      }
    }
  }

  lemma {:induction false} ScoreFirst(key: Title, a: seq<Entry>, b: seq<Entry>, e: Entry)
    requires ByScore(MergeBy(key, a, b))
    requires forall i :: 0 <= i < |a| ==> e.score >= a[i].score
    requires forall i :: 0 <= i < |b| ==> e.score >= b[i].score
    ensures ByScore([e] + MergeBy(key, a, b))
  {
    var m := MergeBy(key, a, b);
    MergeByMultiset(key, a, b);
    forall i | 0 <= i < |m| ensures e.score >= m[i].score {
      assert m[i] in multiset(m);
      assert m[i] in a || m[i] in b;
    }
  }

  lemma {:induction false} TreeByScore(key: Title, b: Build, level: nat, s: seq<Entry>, t: seq<Entry>)
    requires Trees(key, b, level, s, t)
    ensures ByScore(t)
    decreases Depth(b, level, |s|)
  {
    if IsLeaf(b, level, |s|) {
      TreeLeaf(key, b, level, s, t);
      RankedSorts(s);
      SortedByScore(Ranked(s));
    } else {
      var lo, hi := Halves(b, level, s);
      var tlo, thi := TreeNode(key, b, level, lo, hi, t);
      TreeByScore(key, b, level + 1, lo, tlo);
      TreeByScore(key, b, level + 1, hi, thi);
      MergeByScore(key, tlo, thi);
    }
  }

  lemma {:induction false} SortedByScore(s: seq<Entry>)
    requires Sorted(s)
    ensures ByScore(s)
  {
    forall i, j | 0 <= i < j < |s| ensures s[i].score >= s[j].score { assert AtMost(s[i], s[j]); }
  }

  /** Every byte lies above the key's first, as in printable titles under the shipped key. */
  predicate Above(key: Title, t: Title) {
    key != [] && forall i :: 0 <= i < |t| ==> t[i] > key[0]
  }

  /** Titles of such bytes never cross, in either build. */
  lemma {:induction false} PrintableUncrossed(key: Title, b: Build, level: nat, s: seq<Entry>)
    requires forall e :: e in s ==> Above(key, e.title)
    ensures Uncrossed(key, b, level, s)
    decreases Depth(b, level, |s|)
  {
    if IsLeaf(b, level, |s|) {
    } else {
      var lo, hi := Halves(b, level, s);
      HalvesShallower(b, level, |s|);
      PrintableUncrossed(key, b, level + 1, lo);
      PrintableUncrossed(key, b, level + 1, hi);
      forall x, y {:trigger Uncross(key, lo, x, y)} | x in lo && y in hi ensures Uncross(key, lo, x, y) {
        PrintableNeverInverts(key, x.title, y.title);
        PrintableNeverInverts(key, y.title, x.title);
      }
      UncrossedNode(key, b, level, lo, hi);
    }
  }
}
