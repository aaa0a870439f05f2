/** Whole runs of the fork/join machine, whatever the scores: every interleaving of either build
    ends, stops early exactly where `argmax` aborts, and leaves the array with what the sequential
    recursion leaves. */
module ForkJoinRuns {
  import opened Titles
  import opened Ranking
  import opened Selection
  import opened SortTree
  import opened ForkJoin

  // Where a task can stop

  /** Some thread has come to the assertion that ends argmax without a non-negative score: the
      program is aborted. */
  predicate Failing(t: Task) {
    match t
    case Scan(_, r, _, j, _, max) => j > r && max < 0.0
    case Fork(_, _, left, right) => Failing(left) || Failing(right)
    case Left(_, _, _, left) => Failing(left)
    case Right(_, _, right) => Failing(right)
    case _ => false
  }

  lemma {:induction false} NegativesDecorated(key: Title, s: seq<Entry>)
    ensures Negatives(DecorateAll(key, s)) == Negatives(s)
  {
    if s != [] {
      assert DecorateAll(key, s)[1..] == DecorateAll(key, s[1..]);
      NegativesDecorated(key, s[1..]);
    }
  }

  /** What is left to select is negative throughout: argmax aborts on two negative scores. */
  lemma {:induction false} ScanFails(key: Title, s: seq<Entry>, done: seq<Entry>, rest: seq<Entry>)
    requires Selecting(key, s, done, rest) && |rest| >= 2
    requires forall k :: 0 <= k < |rest| ==> rest[k].score < 0.0
    ensures Negatives(s) >= 2
  {
    assert Unfold(SELECTING, s);
    RankedSorts(s);
    RankedSorts(rest);
    NegativesPermutation(Ranked(s), s);
    NegativesPermutation(Ranked(rest), rest);
    NegativesDecorated(key, Ranked(s));
    NegativesDecorated(key, Ranked(rest));
    NegativesAppend(done, DecorateAll(key, Ranked(rest)));
    AllNegative(rest);
  }

  /** No thread fails unless its leaf holds two negative scores. */
  lemma {:induction false} FailingMeans(key: Title, b: Build, lv: nat, t: Task, s: seq<Entry>, m: Mem)
    requires Indices(t, |m|) && Owes(key, b, lv, t, s, m) && Failing(t)
    ensures !LeavesFine(b, lv, s)
    decreases t
  {
    UnfoldOwes(key, b, lv, t, s, m);
    if t.Scan? {
      ScanFails(key, s, m[t.l..t.at], m[t.at..t.r + 1]);
      UnfoldLeaves(b, lv, s);
    } else {
      var lo, hi := Low(s, t.l, t.r), High(s, t.l, t.r);
      assert s == lo + hi;
      NodeFine(b, lv, lo, hi);
      if (t.Fork? || t.Left?) && Failing(t.left) {
        FailingMeans(key, b, lv + 1, t.left, lo, m);
      } else {
        FailingMeans(key, b, lv + 1, t.right, hi, m);
      }
    }
  }

  /** Whatever its siblings do, a task that has not come to its end has a step, unless a thread has
      failed: there is no deadlock. */
  lemma {:induction false} CanStep(key: Title, b: Build, lv: nat, t: Task, s: seq<Entry>, m: Mem)
    returns (t': Task, m': Mem)
    requires Indices(t, |m|) && Owes(key, b, lv, t, s, m) && !Over(t) && !Failing(t)
    ensures Step(key, b, t, m, t', m')
    decreases t, 1
  {
    UnfoldOwes(key, b, lv, t, s, m);
    if t.Fork? {
      t', m' := ForkCanStep(key, b, lv, t.l, t.r, t.left, t.right, Low(s, t.l, t.r), High(s, t.l, t.r), m);
    } else if t.Left? || t.Right? {
      t', m' := HalfCanStep(key, b, lv, t, s, m);
    } else {
      t', m' := CanStepFlat(key, b, lv, t, s, m);
    }
  }

  lemma {:induction false} ForkCanStep(key: Title, b: Build, lv: nat, l: int, r: int, left: Task, right: Task,
                                       lo: seq<Entry>, hi: seq<Entry>, m: Mem) returns (t': Task, m': Mem)
    requires Indices(Fork(l, r, left, right), |m|) && !Failing(left) && !Failing(right)
    requires Owes(key, b, lv + 1, left, lo, m) && Owes(key, b, lv + 1, right, hi, m)
    ensures Step(key, b, Fork(l, r, left, right), m, t', m')
    decreases Fork(l, r, left, right), 0
  {
    if !Over(left) {
      var left', m2 := CanStep(key, b, lv + 1, left, lo, m);
      t', m' := Fork(l, r, left', right), m2;
    } else if !Over(right) {
      var right', m2 := CanStep(key, b, lv + 1, right, hi, m);
      t', m' := Fork(l, r, left, right'), m2;
    } else {
      t', m' := if right.Done? then Take(l, r, l, Mid(l, r) + 1, []) else Gone(l, r), m;
    }
  }

  lemma {:induction false} HalfCanStep(key: Title, b: Build, lv: nat, t: Task, s: seq<Entry>, m: Mem)
    returns (t': Task, m': Mem)
    requires OwesNow(key, b, lv, t, s, m) && (t.Left? || t.Right?) && !Failing(t)
    ensures Step(key, b, t, m, t', m')
    decreases t, 0
  {
    if t.Left? && Over(t.left) {
      OverEnds(key, b, lv + 1, t.left, t.l, Mid(t.l, t.r), Low(s, t.l, t.r), m);
      t', m' := Right(t.l, t.r, Call(Mid(t.l, t.r) + 1, t.r, t.level + 1)), m;
    } else if t.Left? {
      var left', m2 := CanStep(key, b, lv + 1, t.left, Low(s, t.l, t.r), m);
      t', m' := Left(t.l, t.r, t.level, left'), m2;
    } else if Over(t.right) {
      OverEnds(key, b, lv + 1, t.right, Mid(t.l, t.r) + 1, t.r, High(s, t.l, t.r), m);
      t', m' := Take(t.l, t.r, t.l, Mid(t.l, t.r) + 1, []), m;
    } else {
      var right', m2 := CanStep(key, b, lv + 1, t.right, High(s, t.l, t.r), m);
      t', m' := Right(t.l, t.r, right'), m2;
    }
  }

  lemma {:induction false} CanStepFlat(key: Title, b: Build, lv: nat, t: Task, s: seq<Entry>, m: Mem)
    returns (t': Task, m': Mem)
    requires OwesNow(key, b, lv, t, s, m) && !Over(t) && !Failing(t) && !t.Fork? && !t.Left? && !t.Right?
    ensures Step(key, b, t, m, t', m')
  {
    match t
    case Call(l, r, level) => t', m' := if l > r then Done(l, r) else Enter(key, b, l, r, level, m), m;
    case Scan(l, r, at, j, best, max) =>
      if j <= r {
        t', m' := ScanTurn(l, r, at, j, best, max, m), m;
      } else {
        t', m' := Stamp(l, r, at), m[at := m[best]][best := m[at]];
      }
    case Stamp(l, r, at) =>
      t', m' := if at < r then Select(l, r, at + 1) else Done(l, r), m[at := Decorate(key, m[at])];
    case Take(l, r, i, j, out) => t', m' := TakeTurn(l, r, i, j, out, m), m;
    case Put(l, r, k, out) =>
      if k < |out| { t', m' := Put(l, r, k + 1, out), m[l + k := out[k]]; } else { t', m' := Done(l, r), m; }
  }

  // Running tasks never overlap

  /** The ranges of the tasks that can take the next step. */
  function Running(t: Task): seq<(int, int)> {
    match t
    case Fork(l, r, left, right) =>
      if Over(left) && Over(right) then [(l, r)] else Running(left) + Running(right)
    case Left(l, r, _, left) => if left.Done? then [(l, r)] else Running(left)
    case Right(l, r, right) => if right.Done? then [(l, r)] else Running(right)
    case Done(_, _) => []
    case Gone(_, _) => []
    case _ => [(t.l, t.r)]
  }

  /** They follow one another from left to right without a common slot. */
  lemma {:induction false} RunningDisjoint(t: Task, n: nat)
    requires Indices(t, n)
    ensures forall i :: 0 <= i < |Running(t)| ==> t.l <= Running(t)[i].0 && Running(t)[i].1 <= t.r
    ensures forall i, j :: 0 <= i < j < |Running(t)| ==> Running(t)[i].1 < Running(t)[j].0
    decreases t
  {
    match t
    case Fork(l, r, left, right) =>
      RunningDisjoint(left, n);
      RunningDisjoint(right, n);
      SideBySide(Running(left), Running(right), l, Mid(l, r), r);
    case Left(_, _, _, left) => RunningDisjoint(left, n);
    case Right(_, _, right) => RunningDisjoint(right, n);
    case _ =>
  }

  lemma {:induction false} SideBySide(a: seq<(int, int)>, b: seq<(int, int)>, l: int, mid: int, r: int)
    requires l <= mid + 1 <= r + 1
    requires forall i :: 0 <= i < |a| ==> l <= a[i].0 && a[i].1 <= mid
    requires forall i :: 0 <= i < |b| ==> mid + 1 <= b[i].0 && b[i].1 <= r
    requires forall i, j :: 0 <= i < j < |a| ==> a[i].1 < a[j].0
    requires forall i, j :: 0 <= i < j < |b| ==> b[i].1 < b[j].0
    ensures forall i :: 0 <= i < |a + b| ==> l <= (a + b)[i].0 && (a + b)[i].1 <= r
    ensures forall i, j :: 0 <= i < j < |a + b| ==> (a + b)[i].1 < (a + b)[j].0
  {
  }

  /** A step writes only inside the range of the one running task that takes it. */
  lemma {:induction false} StepStaysInside(key: Title, b: Build, t: Task, m: Mem, t': Task, m': Mem)
    returns (i: nat)
    requires Indices(t, |m|) && Step(key, b, t, m, t', m')
    ensures i < |Running(t)| && SameOff(m, m', Running(t)[i].0, Running(t)[i].1)
    decreases t, 1
  {
    i := 0;
    match t
    case Fork(_, _, left, right) =>
      if !(Over(left) && Over(right)) { i := ForkStaysInside(key, b, t, m, t', m'); }
    case Left(_, _, _, left) =>
      if !left.Done? { i := StepStaysInside(key, b, left, m, t'.left, m'); }
    case Right(_, _, right) =>
      if !right.Done? { i := StepStaysInside(key, b, right, m, t'.right, m'); }
    case _ =>
  }

  lemma {:induction false} ForkStaysInside(key: Title, b: Build, t: Task, m: Mem, t': Task, m': Mem)
    returns (i: nat)
    requires t.Fork? && !(Over(t.left) && Over(t.right)) && Indices(t, |m|) && Step(key, b, t, m, t', m')
    ensures i < |Running(t)| && SameOff(m, m', Running(t)[i].0, Running(t)[i].1)
    decreases t, 0
  {
    var a, c := Running(t.left), Running(t.right);
    if t'.right == t.right && Step(key, b, t.left, m, t'.left, m') {
      i := StepStaysInside(key, b, t.left, m, t'.left, m');
      assert (a + c)[i] == a[i];
    } else {
      i := StepStaysInside(key, b, t.right, m, t'.right, m');
      assert (a + c)[|a| + i] == c[i];
      i := |a| + i;
    }
  }

  // Every run ends

  /** A bound on the steps that a whole `mergesort` of l .. r can take. */
  function Cost(b: Build, l: int, r: int, level: nat): nat
    decreases if b.THREAD? then (if l > r then 0 else r - l + 1) else MAX_LEVEL - level
  {
    var n := r - l + 1;
    if l > r then 1
    else if b.THREAD? && n <= SIZE_LIMIT then 1 + SelectRank(l, r, l)
    else if b.PROCESS? && level >= MAX_LEVEL then n + 2
    else Cost(b, l, Mid(l, r), level + 1) + Cost(b, Mid(l, r) + 1, r, level + 1) + 2 * n + 6
  }

  /** A selection sort of l .. r has `slots` slots to go, each of which costs at most this. */
  function SlotCost(l: int, r: int, slots: int): int { slots * (r - l + 4) }

  function SelectRank(l: int, r: int, at: int): nat
    requires l <= at <= r
  {
    SlotsNonNegative(l, r, r - at);
    if at < r then SlotCost(l, r, r - at) + (r + 1 - at) + 2 else 1
  }

  lemma {:induction false} SlotsNonNegative(l: int, r: int, slots: int)
    requires l <= r && 0 <= slots
    ensures SlotCost(l, r, slots) >= 0
  {
  }

  lemma {:induction false} OneSlotLess(l: int, r: int, slots: int)
    ensures SlotCost(l, r, slots) == SlotCost(l, r, slots - 1) + (r - l + 4)
  {
    assert slots * (r - l + 4) == (slots - 1) * (r - l + 4) + (r - l + 4);
  }

  function Rank(b: Build, t: Task): int {
    match t
    case Call(l, r, level) => Cost(b, l, r, level)
    case Scan(l, r, at, j, _, _) => SlotCost(l, r, r - at) + (r + 1 - j) + 2
    case Stamp(l, r, at) => SlotCost(l, r, r - at) + 1
    case Fork(l, r, left, right) => Rank(b, left) + Rank(b, right) + 2 * (r - l + 1) + 3
    case Left(l, r, level, left) =>
      Rank(b, left) + Cost(b, Mid(l, r) + 1, r, level + 1) + 2 * (r - l + 1) + 5
    case Right(l, r, right) => Rank(b, right) + 2 * (r - l + 1) + 3
    case Take(l, r, i, j, _) => (Mid(l, r) + 1 - i) + (r + 1 - j) + (r - l + 1) + 2
    case Put(l, r, k, out) => (r - l + 1) - k + 1
    case Done(_, _) => 0
    case Gone(_, _) => 0
  }

  lemma {:induction false} RankNonNegative(b: Build, t: Task, n: nat)
    requires Indices(t, n)
    ensures Rank(b, t) >= 0
    decreases t
  {
    match t
    case Scan(l, r, at, _, _, _) => SlotsNonNegative(l, r, r - at);
    case Stamp(l, r, at) => SlotsNonNegative(l, r, r - at);
    case Fork(_, _, left, right) => RankNonNegative(b, left, n); RankNonNegative(b, right, n);
    case Left(_, _, _, left) => RankNonNegative(b, left, n);
    case Right(_, _, right) => RankNonNegative(b, right, n);
    case _ =>
  }

  lemma {:induction false} EnterRank(key: Title, b: Build, l: int, r: int, level: nat, m: Mem)
    requires 0 <= l <= r < |m| && (b.PROCESS? ==> level <= MAX_LEVEL)
    ensures Rank(b, Enter(key, b, l, r, level, m)) < Cost(b, l, r, level)
  {
    if b.THREAD? && r - l + 1 <= SIZE_LIMIT { SelectRankIs(b, l, r, l); }
  }

  lemma {:induction false} SelectRankIs(b: Build, l: int, r: int, at: int)
    requires l <= at <= r
    ensures Rank(b, Select(l, r, at)) == SelectRank(l, r, at)
  {
  }

  lemma {:induction false} StampRank(b: Build, l: int, r: int, at: int)
    requires l <= at < r
    ensures Rank(b, Select(l, r, at + 1)) < Rank(b, Stamp(l, r, at))
  {
    OneSlotLess(l, r, r - at);
    SlotsNonNegative(l, r, r - at - 1);
  }

  /** Every step brings the machine closer to the end. */
  lemma {:induction false} StepRank(key: Title, b: Build, lv: nat, t: Task, s: seq<Entry>, m: Mem, t': Task, m': Mem)
    requires Indices(t, |m|) && Owes(key, b, lv, t, s, m) && Step(key, b, t, m, t', m')
    ensures Rank(b, t') < Rank(b, t)
    decreases t, 1
  {
    UnfoldOwes(key, b, lv, t, s, m);
    if t.Fork? {
      ForkRank(key, b, lv, t.l, t.r, t.left, t.right, Low(s, t.l, t.r), High(s, t.l, t.r), m, t', m');
    } else if t.Left? {
      LeftRank(key, b, lv, t.l, t.r, t.level, t.left, Low(s, t.l, t.r), m, t', m');
    } else if t.Right? {
      RightRank(key, b, lv, t.l, t.r, t.right, High(s, t.l, t.r), m, t', m');
    } else {
      FlatRank(key, b, lv, t, s, m, t', m');
    }
  }

  lemma {:induction false} JoinRank(b: Build, l: int, r: int)
    requires l <= r
    ensures Rank(b, Take(l, r, l, Mid(l, r) + 1, [])) == 2 * (r - l + 1) + 2
  {
  }

  lemma {:induction false} ForkRank(key: Title, b: Build, lv: nat, l: int, r: int, left: Task, right: Task,
                                    lo: seq<Entry>, hi: seq<Entry>, m: Mem, t': Task, m': Mem)
    requires Owes(key, b, lv + 1, left, lo, m) && Owes(key, b, lv + 1, right, hi, m)
    requires Indices(Fork(l, r, left, right), |m|) && Step(key, b, Fork(l, r, left, right), m, t', m')
    ensures Rank(b, t') < Rank(b, Fork(l, r, left, right))
    decreases Fork(l, r, left, right), 0
  {
    if Over(left) && Over(right) {
      JoinRank(b, l, r);
    } else if t'.right == right && Step(key, b, left, m, t'.left, m') {
      StepRank(key, b, lv + 1, left, lo, m, t'.left, m');
      ForkRankIs(b, l, r, left, right);
      ForkRankIs(b, l, r, t'.left, right);
    } else {
      StepRank(key, b, lv + 1, right, hi, m, t'.right, m');
      ForkRankIs(b, l, r, left, right);
      ForkRankIs(b, l, r, left, t'.right);
    }
  }

  lemma {:induction false} ForkRankIs(b: Build, l: int, r: int, left: Task, right: Task)
    ensures Rank(b, Fork(l, r, left, right)) == Rank(b, left) + Rank(b, right) + 2 * (r - l + 1) + 3
  {
  }

  lemma {:induction false} LeftRank(key: Title, b: Build, lv: nat, l: int, r: int, level: nat, left: Task,
                                    lo: seq<Entry>, m: Mem, t': Task, m': Mem)
    requires Owes(key, b, lv + 1, left, lo, m)
    requires Indices(Left(l, r, level, left), |m|) && Step(key, b, Left(l, r, level, left), m, t', m')
    ensures Rank(b, t') < Rank(b, Left(l, r, level, left))
    decreases Left(l, r, level, left), 0
  {
    if !left.Done? {
      StepRank(key, b, lv + 1, left, lo, m, t'.left, m');
      assert t' == Left(l, r, level, t'.left);
    }
  }

  lemma {:induction false} RightRank(key: Title, b: Build, lv: nat, l: int, r: int, right: Task,
                                     hi: seq<Entry>, m: Mem, t': Task, m': Mem)
    requires Owes(key, b, lv + 1, right, hi, m)
    requires Indices(Right(l, r, right), |m|) && Step(key, b, Right(l, r, right), m, t', m')
    ensures Rank(b, t') < Rank(b, Right(l, r, right))
    decreases Right(l, r, right), 0
  {
    if !right.Done? {
      StepRank(key, b, lv + 1, right, hi, m, t'.right, m');
      assert t' == Right(l, r, t'.right);
    }
  }

  lemma {:induction false} FlatRank(key: Title, b: Build, lv: nat, t: Task, s: seq<Entry>, m: Mem, t': Task, m': Mem)
    requires OwesNow(key, b, lv, t, s, m) && Step(key, b, t, m, t', m')
    requires !t.Fork? && !t.Left? && !t.Right?
    ensures Rank(b, t') < Rank(b, t)
  {
    if t.Call? {
      if t.l <= t.r { EnterRank(key, b, t.l, t.r, t.level, m); }
    } else if t.Stamp? {
      if t.at < t.r { StampRank(b, t.l, t.r, t.at); } else { SlotsNonNegative(t.l, t.r, 0); }
    } else {
      LoopRank(key, b, t, m, t', m');
    }
  }

  lemma {:induction false} LoopRank(key: Title, b: Build, t: Task, m: Mem, t': Task, m': Mem)
    requires Indices(t, |m|) && Step(key, b, t, m, t', m') && (t.Scan? || t.Take? || t.Put?)
    ensures Rank(b, t') < Rank(b, t)
  {
  }

  // Runs

  /** Successive states of one machine. */
  ghost predicate Run(key: Title, b: Build, ts: seq<Task>, ms: seq<Mem>) {
    && |ts| == |ms| > 0
    && forall i {:trigger Steps(key, b, ts, ms, i)} :: 0 <= i < |ts| - 1 ==> Steps(key, b, ts, ms, i)
  }

  predicate Goes(key: Title, b: Build, t: Task, m: Mem, t': Task, m': Mem) {
    Indices(t, |m|) && Step(key, b, t, m, t', m')
  }

  ghost predicate Stuck(key: Title, b: Build, t: Task, m: Mem) {
    forall t', m' :: !Goes(key, b, t, m, t', m')
  }

  predicate Steps(key: Title, b: Build, ts: seq<Task>, ms: seq<Mem>, i: int)
    requires |ts| == |ms| && 0 <= i < |ts| - 1
  {
    Goes(key, b, ts[i], ms[i], ts[i + 1], ms[i + 1])
  }

  /** A run from the start of the request whose filtered and scored movies are `s`. */
  ghost predicate RunOf(key: Title, b: Build, s: seq<Entry>, ts: seq<Task>, ms: seq<Mem>) {
    Run(key, b, ts, ms) && ts[0] == Call(0, |s| - 1, 0) && ms[0] == s
  }

  lemma {:induction false} RunOwes(key: Title, b: Build, s: seq<Entry>, ts: seq<Task>, ms: seq<Mem>, i: nat)
    requires RunOf(key, b, s, ts, ms) && i < |ts|
    ensures |ms[i]| == |s| && ts[i].l == 0 && ts[i].r == |s| - 1
    ensures Indices(ts[i], |s|) && Owes(key, b, 0, ts[i], s, ms[i])
  {
    if i == 0 {
      UnfoldOwes(key, b, 0, ts[0], s, ms[0]);
    } else {
      RunOwes(key, b, s, ts, ms, i - 1);
      assert Steps(key, b, ts, ms, i - 1);
      StepOwes(key, b, 0, ts[i - 1], s, ms[i - 1], ts[i], ms[i]);
    }
  }

  lemma {:induction false} RunRank(key: Title, b: Build, s: seq<Entry>, ts: seq<Task>, ms: seq<Mem>, i: nat)
    requires RunOf(key, b, s, ts, ms) && i < |ts|
    ensures Rank(b, ts[i]) + i <= Rank(b, ts[0])
  {
    if i > 0 {
      RunRank(key, b, s, ts, ms, i - 1);
      RunOwes(key, b, s, ts, ms, i - 1);
      assert Steps(key, b, ts, ms, i - 1);
      StepRank(key, b, 0, ts[i - 1], s, ms[i - 1], ts[i], ms[i]);
    }
  }

  /** In every state of every interleaving of either build, whatever the scores and titles: if the
      root task is over, the array is what the sequential recursion leaves, and the task came
      back if and only if the recursion survives; nothing is stuck before that unless a thread has
      failed, which happens only if a leaf holds two negative scores; and the run is never longer
      than its cost. */
  lemma {:induction false} EveryRunSorts(key: Title, b: Build, s: seq<Entry>, ts: seq<Task>, ms: seq<Mem>)
    requires RunOf(key, b, s, ts, ms)
    ensures var t, m := ts[|ts| - 1], ms[|ts| - 1];
      && Indices(t, |m|)
      && (Over(t) ==> m == Result(key, b, 0, s) && (t.Done? <==> Survives(b, 0, s)))
      && (Stuck(key, b, t, m) ==> Over(t) || Failing(t))
      && (Failing(t) ==> !LeavesFine(b, 0, s))
    ensures |ts| <= Cost(b, 0, |s| - 1, 0) + 1
  {
    var i := |ts| - 1;
    var t, m := ts[i], ms[i];
    RunOwes(key, b, s, ts, ms, i);
    RunRank(key, b, s, ts, ms, i);
    RankNonNegative(b, t, |s|);
    if Over(t) {
      UnfoldOwes(key, b, 0, t, s, m);
      assert m[0..|s|] == m;
      UnfoldEnded(key, b, 0, s, m);
    } else if Failing(t) {
      FailingMeans(key, b, 0, t, s, m);
    } else {
      var t', m' := CanStep(key, b, 0, t, s, m);
      assert Goes(key, b, t, m, t', m');
    }
  }

  /** The THREAD build's root task comes back from every run that cannot go on, if no leaf holds two
      negative scores; otherwise from none, and each such run ends with a failed thread. */
  lemma {:induction false} ThreadsEndIff(key: Title, s: seq<Entry>, ts: seq<Task>, ms: seq<Mem>)
    requires RunOf(key, THREAD, s, ts, ms)
    requires Stuck(key, THREAD, ts[|ts| - 1], ms[|ts| - 1])
    ensures ts[|ts| - 1].Done? <==> LeavesFine(THREAD, 0, s)
    ensures Failing(ts[|ts| - 1]) <==> !LeavesFine(THREAD, 0, s)
  {
    var t, m := ts[|ts| - 1], ms[|ts| - 1];
    EveryRunSorts(key, THREAD, s, ts, ms);
    ThreadsSurviveIff(0, s);
    RunOwes(key, THREAD, s, ts, ms, |ts| - 1);
    UnfoldOwes(key, THREAD, 0, t, s, m);
  }

  /** What a finished run of either build leaves is the decorated ranking by plain titles if and
      only if no leaf holds two negative scores and nothing crosses at a merge of that build. */
  lemma {:induction false} RunRanksIff(key: Title, b: Build, s: seq<Entry>, ts: seq<Task>, ms: seq<Mem>)
    requires Sound(key) && (b.PROCESS? ==> key != [] || LeavesFine(b, 0, s))
    requires RunOf(key, b, s, ts, ms) && ts[|ts| - 1].Done?
    ensures ms[|ms| - 1] == DecorateAll(key, Ranked(s)) <==> LeavesFine(b, 0, s) && Uncrossed(key, b, 0, s)
    ensures b.THREAD? ==> LeavesFine(b, 0, s)
  {
    EveryRunSorts(key, b, s, ts, ms);
    if b.THREAD? { ThreadsSurviveIff(0, s); }
    ResultRanksIff(key, b, 0, s);
  }

  /** The two builds, with their differently shaped trees: where no leaf holds two negative scores
      and one of them ranks, they leave the same array if and only if both rank. */
  lemma {:induction false} BuildsAgree(key: Title, s: seq<Entry>, ts: seq<Task>, ms: seq<Mem>,
                                       ts': seq<Task>, ms': seq<Mem>)
    requires Sound(key) && RunOf(key, THREAD, s, ts, ms) && ts[|ts| - 1].Done?
    requires RunOf(key, PROCESS, s, ts', ms') && ts'[|ts'| - 1].Done? && LeavesFine(PROCESS, 0, s)
    requires Uncrossed(key, THREAD, 0, s) || Uncrossed(key, PROCESS, 0, s)
    ensures ms[|ms| - 1] == ms'[|ms'| - 1] <==> Uncrossed(key, THREAD, 0, s) && Uncrossed(key, PROCESS, 0, s)
  {
    RunRanksIff(key, THREAD, s, ts, ms);
    RunRanksIff(key, PROCESS, s, ts', ms');
  }

  /** On a request that the THREAD build sorts as one leaf, they agree if and only if nothing crosses
      in the PROCESS build. */
  lemma {:induction false} SmallBuildsAgreeIff(key: Title, s: seq<Entry>, ts: seq<Task>, ms: seq<Mem>,
                                               ts': seq<Task>, ms': seq<Mem>)
    requires Sound(key) && |s| <= SIZE_LIMIT
    requires RunOf(key, THREAD, s, ts, ms) && ts[|ts| - 1].Done?
    requires RunOf(key, PROCESS, s, ts', ms') && ts'[|ts'| - 1].Done?
    ensures ms[|ms| - 1] == ms'[|ms'| - 1] <==> Uncrossed(key, PROCESS, 0, s)
  {
    EveryRunSorts(key, THREAD, s, ts, ms);
    FewNegatives(0, s);
    BuildsAgree(key, s, ts, ms, ts', ms');
  }
}
