/** The shared score and movie_name arrays of one request, with the code that sorts them in
    place: the selection sort of lib.c and the merge sort of the THREAD build. */
module MovieData {
  import opened Titles
  import opened Ranking
  import opened Selection
  import opened SortTree

  class Data {
    const names: array<Title>
    const score: array<real>
    /** The key of the library the server is linked with. */
    const key: Title
    /** What the two arrays hold, slot by slot. */
    ghost var mem: seq<Entry>

    constructor (key: Title, slots: nat)
      ensures Valid() && fresh(names) && fresh(score) && |mem| == slots && this.key == key
    {
      names, score := new Title[slots](_ => []), new real[slots](_ => 0.0);
      this.key := key;
      mem := seq(slots, _ => Entry(0.0, []));
    }

    ghost predicate Valid()
      reads this, names, score
    {
      && names.Length == score.Length == |mem|
      && forall k {:trigger score[k]} {:trigger names[k]} :: 0 <= k < |mem| ==> mem[k] == Entry(score[k], names[k])
    }

    /** The index `argmax` finds: the head of the range's ranking `r`. `ok` is false when its
        closing assertion aborts the program. */
    method ArgMax(start: nat, end: nat, ghost r: seq<Entry>) returns (ok: bool, ret: nat)
      requires Valid() && start < end <= |mem| && RanksAs(mem[start..end], r)
      ensures ok <==> exists k :: start <= k < end && mem[k].score >= 0.0
      ensures start <= ret < end && |r| == end - start
      ensures ok ==> r[0] == mem[ret] && r[0].score >= 0.0
    {
      ret := start;
      var max := -1.0;
      for i := start to end
        invariant start <= ret < end
        invariant max >= 0.0 ==> ret < i && max == score[ret]
        invariant max >= 0.0 ==> forall k :: start <= k < i ==> AtMost(mem[ret], mem[k])
        invariant max < 0.0 ==> forall k :: start <= k < i ==> mem[k].score < 0.0
      {
        AtMostIsTotalOrder(mem[i], mem[i]);
        StrCmpSign(names[ret], names[i]);
        if score[i] > max {
          max, ret := score[i], i;
        } else if score[i] == max {
          if StrCmp(names[ret], names[i]) > 0 {
            forall k | start <= k < i && max >= 0.0 ensures AtMost(mem[i], mem[k]) {
              AtMostTransitive(mem[i], mem[ret], mem[k]);
            }
            ret := i;
          }
        }
      }
      ok := max >= 0.0;
      RankingLength(mem[start..end], r);
      if ok { HeadOfRanking(mem, start, end, ret, r); }
    }

    method Swap(i: nat, j: nat)
      requires Valid() && i < |mem| && j < |mem|
      modifies this, names, score
      ensures Valid() && |mem| == old(|mem|)
      ensures mem[i] == old(mem[j]) && mem[j] == old(mem[i])
      ensures forall k :: 0 <= k < |mem| && k != i && k != j ==> mem[k] == old(mem[k])
    {
      var m := names[i];
      names[i] := names[j];
      names[j] := m;
      var p := score[i];
      score[i] := score[j];
      score[j] := p;
      mem := mem[i := mem[j]][j := mem[i]];
    }

    /** `deal_request` fills slot i. */
    method Fill(i: nat, points: real, title: Title)
      requires Valid() && i < |mem|
      modifies this, names, score
      ensures Valid() && mem == old(mem)[i := Entry(points, title)]
    {
      names[i] := title;
      score[i] := points;
      mem := mem[i := Entry(points, title)];
    }

    method StampSecret(i: nat)
      requires Valid() && i < |mem|
      modifies this, names
      ensures Valid() && mem == old(mem)[i := Decorate(key, old(mem)[i])]
    {
      names[i] := AddSecret(key, names[i]);
      mem := mem[i := Decorate(key, mem[i])];
    }

    /** The body of the selection loop, the ranking of the whole range being `r`: the best
        entry of at .. hi - 1 moves to slot at and gets its secret. */
    method Place(at: nat, hi: nat, ghost r: seq<Entry>, ghost i: nat) returns (ok: bool)
      requires Valid() && at < hi <= |mem| && |r| == i + (hi - at) && RanksAs(mem[at..hi], r[i..])
      modifies this, names, score
      ensures Valid() && |mem| == old(|mem|)
      ensures ok ==> r[i].score >= 0.0 && mem[at] == Decorate(key, r[i]) && RanksAs(mem[at + 1..hi], r[i + 1..])
      ensures !ok && hi - at >= 2 ==> Negatives(r) >= 2
      ensures forall k :: 0 <= k < |mem| && !(at <= k < hi) ==> mem[k] == old(mem)[k]
    {
      ghost var before := mem[at..hi];
      var idx;
      ok, idx := ArgMax(at, hi, r[i..]);
      if !ok {
        if hi - at >= 2 { AbortMeansTwoNegatives(before, r, i); }
        return;
      }
      Swap(at, idx);
      ghost var after := mem[at..hi];
      SelectionStep(before, idx - at, after, r[i..]);
      StampSecret(at);
      assert mem[at + 1..hi] == after[1..];
      assert r[i..][1..] == r[i + 1..];
    }

    /** The selection loop over lo .. hi - 1, whose ranking is `r`: it places every slot but
        the last. */
    method PlaceAllButLast(lo: nat, hi: nat, ghost r: seq<Entry>) returns (ok: bool)
      requires Valid() && lo < hi <= |mem| && |r| == hi - lo && RanksAs(mem[lo..hi], r)
      modifies this, names, score
      ensures Valid() && |mem| == old(|mem|)
      ensures !ok ==> Negatives(r) >= 2
      ensures ok ==> |r| >= 2 ==> r[|r| - 2].score >= 0.0
      ensures ok ==> forall k :: lo <= k < hi - 1 ==> mem[k] == Decorate(key, r[k - lo])
      ensures ok ==> RanksAs(mem[hi - 1..hi], r[|r| - 1..])
      ensures forall k :: 0 <= k < |mem| && !(lo <= k < hi) ==> mem[k] == old(mem)[k]
    {
      var at := lo;
      assert r[0..] == r;
      while at < hi - 1
        invariant lo <= at <= hi - 1
        invariant Valid() && |mem| == old(|mem|)
        invariant at > lo ==> r[at - lo - 1].score >= 0.0
        invariant forall k :: lo <= k < at ==> mem[k] == Decorate(key, r[k - lo])
        invariant RanksAs(mem[at..hi], r[at - lo..])
        invariant forall k :: 0 <= k < |mem| && !(lo <= k < hi) ==> mem[k] == old(mem)[k]
      {
        ok := Place(at, hi, r, at - lo);
        if !ok { return; }
        at := at + 1;
      }
      ok := true;
    }

    /** The leaf sort. It leaves the range ranked by score and plain title with the secret on
        every title, touches nothing else, and is aborted by `argmax` exactly when more
        than one score is negative. */
    method Sort(lo: nat, hi: nat) returns (ok: bool)
      requires Valid() && lo < hi <= |mem|
      modifies this, names, score
      ensures Valid() && |mem| == old(|mem|)
      ensures ok <==> Negatives(old(mem)[lo..hi]) <= 1
      ensures ok ==> Finished(key, old(mem)[lo..hi], mem[lo..hi])
      ensures forall k :: 0 <= k < |mem| && !(lo <= k < hi) ==> mem[k] == old(mem)[k]
    {
      ghost var s := mem[lo..hi];
      ghost var r := RankingOf(s);
      NegativesOfRanking(s, r);
      ok := PlaceAllButLast(lo, hi, r);
      if !ok { return; }
      NoAbortMeansOneNegative(s, r);
      ghost var last := mem[hi - 1..hi];
      StampSecret(hi - 1);
      FinishSelection(key, s, r, last, mem[lo..hi]);
    }

    /** The merge of the two halves of l .. r through temporary arrays. */
    method MergeHalves(l: nat, mid: nat, r: nat)
      requires Valid() && l < r < |mem| && mid == (l + r) / 2
      modifies this, names, score
      ensures Valid() && |mem| == old(|mem|)
      ensures Merging([], old(mem)[l..mid + 1], old(mem)[mid + 1..r + 1], mem[l..r + 1])
      ensures forall k :: 0 <= k < |mem| && !(l <= k <= r) ==> mem[k] == old(mem)[k]
    {
      var score' := new real[r - l + 1];
      var names' := new Title[r - l + 1];
      ghost var out := TakeAll(l, mid, r, score', names');
      CopyBack(l, score', names', out);
      CopiedBack(mem, l, out);
    }

    /** The memcpy of the temporary arrays. */
    method CopyBack(l: nat, score': array<real>, names': array<Title>, ghost out: seq<Entry>)
      requires Valid() && Holds(score', names', out) && |out| == score'.Length && l + |out| <= |mem|
      requires score' != score && names' != names
      modifies this, names, score
      ensures Valid() && |mem| == old(|mem|)
      ensures forall i :: l <= i < l + |out| ==> mem[i] == out[i - l]
      ensures forall i :: 0 <= i < |mem| && !(l <= i < l + |out|) ==> mem[i] == old(mem)[i]
    {
      for k := 0 to score'.Length
        invariant |mem| == old(|mem|) && Valid() && Holds(score', names', out)
        invariant forall i :: l <= i < l + k ==> mem[i] == out[i - l]
        invariant forall i :: 0 <= i < |mem| && !(l <= i < l + k) ==> mem[i] == old(mem)[i]
      {
        score[l + k] := score'[k];
        names[l + k] := names'[k];
        mem := mem[l + k := out[k]];
      }
    }

    /** The loops of `merge` that fill the temporary arrays. */
    method TakeAll(l: nat, mid: nat, r: nat, score': array<real>, names': array<Title>)
      returns (ghost out: seq<Entry>)
      requires Valid() && l <= mid < r < |mem|
      requires score'.Length == names'.Length == r - l + 1
      requires score' != score && names' != names
      modifies score', names'
      ensures Valid() && |out| == r - l + 1 && Holds(score', names', out)
      ensures Merging([], mem[l..mid + 1], mem[mid + 1..r + 1], out)
    {
      var idx_l, idx_r, len := l, mid + 1, 0;
      ghost var m := StartMerging(mem[l..mid + 1], mem[mid + 1..r + 1]);
      out := [];
      while idx_l <= mid && idx_r <= r
        invariant Taken(mem, l, mid, r, idx_l, idx_r, out, m) && len == |out|
        invariant Valid() && Holds(score', names', out)
      {
        if score[idx_l] > score[idx_r]
          || (score[idx_l] == score[idx_r] && StrCmp(names[idx_l], names[idx_r]) < 0)
        {
          AdvanceLeft(mem, l, mid, r, idx_l, idx_r, out, m);
          score'[len], names'[len] := score[idx_l], names[idx_l];
          out := out + [mem[idx_l]];
          idx_l, len := idx_l + 1, len + 1;
        } else {
          AdvanceRight(mem, l, mid, r, idx_l, idx_r, out, m);
          score'[len], names'[len] := score[idx_r], names[idx_r];
          out := out + [mem[idx_r]];
          idx_r, len := idx_r + 1, len + 1;
        }
      }
      out := TakeRest(l, mid, r, idx_l, idx_r, score', names', out, m);
    }

    /** The two loops for the half that is left over. */
    method TakeRest(l: nat, mid: nat, r: nat, l': nat, r': nat, score': array<real>, names': array<Title>,
                    ghost out': seq<Entry>, ghost m: seq<Entry>)
      returns (ghost out: seq<Entry>)
      requires Valid() && l <= mid < r < |mem|
      requires score'.Length == names'.Length == r - l + 1 && score' != score && names' != names
      requires Taken(mem, l, mid, r, l', r', out', m) && (l' > mid || r' > r)
      requires Holds(score', names', out')
      modifies score', names'
      ensures Valid() && |out| == r - l + 1 && Holds(score', names', out) && out == m
    {
      var idx_l, idx_r, len := l', r', l' - l + r' - mid - 1;
      out := out';
      while idx_l <= mid
        invariant idx_l > mid || idx_r > r
        invariant Taken(mem, l, mid, r, idx_l, idx_r, out, m) && len == |out|
        invariant Valid() && Holds(score', names', out)
      {
        AdvanceLeft(mem, l, mid, r, idx_l, idx_r, out, m);
        score'[len], names'[len] := score[idx_l], names[idx_l];
        out := out + [mem[idx_l]];
        idx_l, len := idx_l + 1, len + 1;
      }
      while idx_r <= r
        invariant idx_l > mid
        invariant Taken(mem, l, mid, r, idx_l, idx_r, out, m) && len == |out|
        invariant Valid() && Holds(score', names', out)
      {
        AdvanceRight(mem, l, mid, r, idx_l, idx_r, out, m);
        score'[len], names'[len] := score[idx_r], names[idx_r];
        out := out + [mem[idx_r]];
        idx_r, len := idx_r + 1, len + 1;
      }
      MergingDone(out, mem[idx_l..mid + 1], mem[idx_r..r + 1], m);
    }

    /** The THREAD build's `mergesort` when every created thread is joined before its creator
        goes on, the range l .. r holding `s`. The program is aborted exactly when a leaf holds
        two negative scores; otherwise the range is left as the recursion leaves it, and nothing
        else is touched. */
    method MergeSort(l: int, r: int, level: nat, ghost s: seq<Entry>) returns (ok: bool)
      requires Valid() && 0 <= l <= r + 1 <= |mem| && s == mem[l..r + 1]
      modifies this, names, score
      ensures Valid() && |mem| == old(|mem|)
      ensures ok <==> LeavesFine(THREAD, level, s)
      ensures ok ==> Delivered(key, THREAD, level, s, mem[l..r + 1])
      ensures forall k :: 0 <= k < |mem| && !(l <= k <= r) ==> mem[k] == old(mem)[k]
      decreases r - l, 1
    {
      if l > r {
        ok := true;
        OneLeaf(level, s);
        EmptyResult(key, level, s);
      } else if r - l + 1 <= SIZE_LIMIT {
        OneLeaf(level, s);
        ok := Sort(l, r + 1);
        if ok { LeafDelivers(key, THREAD, level, s, mem[l..r + 1]); }
      } else {
        ok := SortHalves(l, (l + r) / 2, r, level, s);
      }
    }

    /** Both halves, then the merge. */
    method SortHalves(l: int, mid: int, r: int, level: nat, ghost s: seq<Entry>) returns (ok: bool)
      requires Valid() && 0 <= l < r < |mem| && mid == (l + r) / 2 && r - l + 1 > SIZE_LIMIT && s == mem[l..r + 1]
      modifies this, names, score
      ensures Valid() && |mem| == old(|mem|)
      ensures ok <==> LeavesFine(THREAD, level, s)
      ensures ok ==> Delivered(key, THREAD, level, s, mem[l..r + 1])
      ensures forall k :: 0 <= k < |mem| && !(l <= k <= r) ==> mem[k] == old(mem)[k]
      decreases r - l, 0
    {
      ghost var lo, hi := mem[l..mid + 1], mem[mid + 1..r + 1];
      LeavesOfHalves(level, mem, l, mid, r);
      ok := SortBoth(l, mid, r, level, lo, hi);
      if !ok { return; }
      ghost var vlo, vhi := mem[l..mid + 1], mem[mid + 1..r + 1];
      MergeHalves(l, mid, r);
      NodeDelivers(key, THREAD, level, lo, hi, vlo, vhi, mem[l..r + 1]);
    }

    /** The two recursive calls. */
    method SortBoth(l: int, mid: int, r: int, level: nat, ghost lo: seq<Entry>, ghost hi: seq<Entry>) returns (ok: bool)
      requires Valid() && 0 <= l <= mid < r < |mem| && lo == mem[l..mid + 1] && hi == mem[mid + 1..r + 1]
      modifies this, names, score
      ensures Valid() && |mem| == old(|mem|)
      ensures ok <==> LeavesFine(THREAD, level + 1, lo) && LeavesFine(THREAD, level + 1, hi)
      ensures ok ==> Delivered(key, THREAD, level + 1, lo, mem[l..mid + 1])
      ensures ok ==> Delivered(key, THREAD, level + 1, hi, mem[mid + 1..r + 1])
      ensures forall k :: 0 <= k < |mem| && !(l <= k <= r) ==> mem[k] == old(mem)[k]
      decreases r - l, -1
    {
      ghost var m0 := mem;
      ok := MergeSort(l, mid, level + 1, lo);
      ghost var m1 := mem;
      Unmoved(m0, m1, mid + 1, r + 1);
      if !ok { return; }
      ok := MergeSort(mid + 1, r, level + 1, hi);
      Unmoved(m1, mem, l, mid + 1);
    }
  }

  /** `merge` has taken `out` of the two halves of l .. r and stands at idx_l and idx_r; it will
      end with `all`. */
  ghost predicate Taken(m: seq<Entry>, l: nat, mid: nat, r: nat, idx_l: int, idx_r: int, out: seq<Entry>, all: seq<Entry>)
    requires l <= mid < r < |m|
  {
    && l <= idx_l <= mid + 1 <= idx_r <= r + 1
    && |out| == idx_l - l + idx_r - mid - 1
    && Merging(out, m[idx_l..mid + 1], m[idx_r..r + 1], all)
  }

  lemma {:induction false} AdvanceLeft(m: seq<Entry>, l: nat, mid: nat, r: nat, idx_l: int, idx_r: int,
                                       out: seq<Entry>, all: seq<Entry>)
    requires l <= mid < r < |m| && Taken(m, l, mid, r, idx_l, idx_r, out, all) && idx_l <= mid
    requires idx_r > r || Before(m[idx_l], m[idx_r])
    ensures Taken(m, l, mid, r, idx_l + 1, idx_r, out + [m[idx_l]], all)
  {
    var a := m[idx_l..mid + 1];
    TakeLeft(out, a, m[idx_r..r + 1], all);
    assert a[1..] == m[idx_l + 1..mid + 1];
  }

  lemma {:induction false} AdvanceRight(m: seq<Entry>, l: nat, mid: nat, r: nat, idx_l: int, idx_r: int,
                                        out: seq<Entry>, all: seq<Entry>)
    requires l <= mid < r < |m| && Taken(m, l, mid, r, idx_l, idx_r, out, all) && idx_r <= r
    requires idx_l > mid || !Before(m[idx_l], m[idx_r])
    ensures Taken(m, l, mid, r, idx_l, idx_r + 1, out + [m[idx_r]], all)
  {
    var b := m[idx_r..r + 1];
    TakeRight(out, m[idx_l..mid + 1], b, all);
    assert b[1..] == m[idx_r + 1..r + 1];
  }

  lemma {:induction false} EmptyResult(key: Title, level: nat, s: seq<Entry>)
    requires s == []
    ensures Delivered(key, THREAD, level, s, s)
  {
    LeafDelivers(key, THREAD, level, s, s);
  }

  lemma {:induction false} OneLeaf(level: nat, s: seq<Entry>)
    requires |s| <= SIZE_LIMIT
    ensures LeavesFine(THREAD, level, s) <==> Negatives(s) <= 1
  {
    UnfoldLeaves(THREAD, level, s);
  }

  lemma {:induction false} LeavesOfHalves(level: nat, m: seq<Entry>, l: int, mid: int, r: int)
    requires 0 <= l <= r < |m| && mid == (l + r) / 2 && r - l + 1 > SIZE_LIMIT
    ensures m[l..r + 1] == m[l..mid + 1] + m[mid + 1..r + 1]
    ensures LeavesFine(THREAD, level, m[l..r + 1])
      <==> LeavesFine(THREAD, level + 1, m[l..mid + 1]) && LeavesFine(THREAD, level + 1, m[mid + 1..r + 1])
  {
    var lo, hi := m[l..mid + 1], m[mid + 1..r + 1];
    assert m[l..r + 1] == lo + hi;
    NodeFine(THREAD, level, lo, hi);
  }

  lemma {:induction false} CopiedBack(m: seq<Entry>, l: nat, out: seq<Entry>)
    requires l + |out| <= |m| && forall i :: l <= i < l + |out| ==> m[i] == out[i - l]
    ensures m[l..l + |out|] == out
  {
  }

  lemma {:induction false} Unmoved(m: seq<Entry>, m': seq<Entry>, i: int, j: int)
    requires 0 <= i <= j <= |m| == |m'| && forall k :: i <= k < j ==> m'[k] == m[k]
    ensures m'[i..j] == m[i..j]
  {
  }

  ghost predicate Holds(score: array<real>, names: array<Title>, out: seq<Entry>)
    reads score, names
  {
    && |out| <= score.Length == names.Length
    && forall k {:trigger out[k]} :: 0 <= k < |out| ==> out[k] == Entry(score[k], names[k])
  }

  lemma {:induction false} RankingOf(s: seq<Entry>) returns (r: seq<Entry>)
    ensures RanksAs(s, r) && |r| == |s|
  {
    r := Ranked(s);
    UnfoldRanking(s, r);
    RankedSorts(s);
  }
}
