/** The merge sort of both builds as a machine whose running tasks take element-level steps
    in any order on one shared array. A THREAD task is a thread, a PROCESS task a forked
    process; a step is one turn of a loop of `argmax`, `sort` or `merge`, one store of a copy
    back, or one call, fork or join. */
module ForkJoin {
  import opened Titles
  import opened Ranking
  import opened Selection
  import opened SortTree
  import opened MovieData

  type Mem = seq<Entry>

  datatype Task =
    | Call(l: int, r: int, level: nat)                                  // mergesort entered
    | Scan(l: int, r: int, at: int, j: int, best: int, max: real)       // sort: inside argmax
    | Stamp(l: int, r: int, at: int)                                    // sort: add_secret
    | Fork(l: int, r: int, left: Task, right: Task)                     // both halves run
    | Left(l: int, r: int, level: nat, left: Task)                      // first half, same task
    | Right(l: int, r: int, right: Task)                                // second half, same task
    | Take(l: int, r: int, idx_l: int, idx_r: int, out: seq<Entry>)     // merge: filling the buffer
    | Put(l: int, r: int, k: int, out: seq<Entry>)                      // copying a buffer back
    | Done(l: int, r: int)
    | Gone(l: int, r: int)     // a process aborted in argmax, and all that it had forked has ended

  function Mid(l: int, r: int): int { (l + r) / 2 }

  // The steps

  /** Where `mergesort` goes from its entry. The leaf of the PROCESS build sorts a private copy,
      which no other process can see, and then copies it back; if `argmax` aborts, only this
      process ends. */
  function Enter(key: Title, b: Build, l: int, r: int, level: nat, m: Mem): Task
    requires 0 <= l <= r < |m|
  {
    var mid := Mid(l, r);
    if b.THREAD? then
      if r - l + 1 <= SIZE_LIMIT then Select(l, r, l)
      else if level >= MAX_LEVEL then Left(l, r, level, Call(l, mid, level + 1))
      else Fork(l, r, Call(l, mid, level + 1), Call(mid + 1, r, level + 1))
    else
      if level == MAX_LEVEL then
        if Negatives(m[l..r + 1]) <= 1 then Put(l, r, 0, DecorateAll(key, Ranked(m[l..r + 1]))) else Gone(l, r)
      else Fork(l, r, Call(l, mid, level + 1), Call(mid + 1, r, level + 1))
  }

  /** `sort` at slot `at`: the last slot needs no search. */
  function Select(l: int, r: int, at: int): Task {
    if at < r then Scan(l, r, at, at, at, -1.0) else Stamp(l, r, at)
  }

  /** One turn of argmax's loop. */
  function ScanTurn(l: int, r: int, at: int, j: int, best: int, max: real, m: Mem): Task
    requires 0 <= best < |m| && 0 <= j < |m|
  {
    if m[j].score > max then Scan(l, r, at, j + 1, j, m[j].score)
    else if m[j].score == max && StrCmp(m[best].title, m[j].title) > 0 then Scan(l, r, at, j + 1, j, max)
    else Scan(l, r, at, j + 1, best, max)
  }

  /** One turn of the loops of `merge`, or their end. */
  function TakeTurn(l: int, r: int, i: int, j: int, out: seq<Entry>, m: Mem): Task
    requires 0 <= i <= Mid(l, r) + 1 <= j <= r + 1 <= |m|
  {
    if i <= Mid(l, r) && (j > r || Before(m[i], m[j])) then Take(l, r, i + 1, j, out + [m[i]])
    else if j <= r then Take(l, r, i, j + 1, out + [m[j]])
    else Put(l, r, 0, out)
  }

  /** The task's own indices lie inside the array and its range. */
  predicate Indices(t: Task, n: nat) {
    && 0 <= t.l <= t.r + 1 <= n
    && match t
       case Scan(l, r, at, j, best, _) => l <= at <= best <= r && at <= j <= r + 1 && at < r
       case Stamp(l, r, at) => l <= at <= r
       case Fork(l, r, left, right) =>
         && l <= r && left.l == l && left.r == Mid(l, r) && right.l == Mid(l, r) + 1 && right.r == r
         && Indices(left, n) && Indices(right, n)
       case Left(l, r, _, left) => l <= r && left.l == l && left.r == Mid(l, r) && Indices(left, n)
       case Right(l, r, right) => l <= r && right.l == Mid(l, r) + 1 && right.r == r && Indices(right, n)
       case Take(l, r, i, j, out) =>
         l <= r && l <= i <= Mid(l, r) + 1 <= j <= r + 1 && |out| == i - l + j - Mid(l, r) - 1
       case Put(l, r, k, out) => 0 <= k <= |out| == r - l + 1
       case _ => true
  }

  /** The task has come to its end: what a join or a `waitpid` waits for, here until the last
      process that an aborted one had forked has ended too. */
  predicate Over(t: Task) { t.Done? || t.Gone? }

  predicate Step(key: Title, b: Build, t: Task, m: Mem, t': Task, m': Mem)
    requires Indices(t, |m|)
    decreases t
  {
    match t
    case Call(l, r, level) =>
      m' == m && t' == if l > r then Done(l, r) else Enter(key, b, l, r, level, m)
    case Scan(l, r, at, j, best, max) =>
      if j <= r then m' == m && t' == ScanTurn(l, r, at, j, best, max, m)
      else max >= 0.0                                  // the assertion that ends argmax
           && t' == Stamp(l, r, at) && m' == m[at := m[best]][best := m[at]]
    case Stamp(l, r, at) =>
      && m' == m[at := Decorate(key, m[at])]
      && t' == if at < r then Select(l, r, at + 1) else Done(l, r)
    case Fork(l, r, left, right) =>
      if Over(left) && right.Done? then m' == m && t' == Take(l, r, l, Mid(l, r) + 1, [])
      else if Over(left) && right.Gone? then m' == m && t' == Gone(l, r)
      else
        && t'.Fork? && t'.l == l && t'.r == r
        && ( || (t'.right == right && Step(key, b, left, m, t'.left, m'))
             || (t'.left == left && Step(key, b, right, m, t'.right, m')))
    case Left(l, r, level, left) =>
      if left.Done? then m' == m && t' == Right(l, r, Call(Mid(l, r) + 1, r, level + 1))
      else t'.Left? && t'.l == l && t'.r == r && t'.level == level && Step(key, b, left, m, t'.left, m')
    case Right(l, r, right) =>
      if right.Done? then m' == m && t' == Take(l, r, l, Mid(l, r) + 1, [])
      else t'.Right? && t'.l == l && t'.r == r && Step(key, b, right, m, t'.right, m')
    case Take(l, r, i, j, out) => m' == m && t' == TakeTurn(l, r, i, j, out, m)
    case Put(l, r, k, out) =>
      if k < |out| then m' == m[l + k := out[k]] && t' == Put(l, r, k + 1, out)
      else m' == m && t' == Done(l, r)
    case Done(_, _) => false
    case Gone(_, _) => false
  }

  // What a task owes

  /** A selection sort of `s` has put `done` in front and has `rest` to go. Folded. */
  ghost predicate Selecting(key: Title, s: seq<Entry>, done: seq<Entry>, rest: seq<Entry>) {
    forall t {:trigger Unfold(SELECTING, t)} ::
      Unfold(SELECTING, t) && t == s ==>
        DecorateAll(key, Ranked(s)) == done + DecorateAll(key, Ranked(rest))
  }

  predicate BestSoFar(m: Mem, at: int, j: int, best: int, max: real)
    requires 0 <= at <= best && at <= j <= |m| && best < |m|
  {
    && (max >= 0.0 ==> best < j && max == m[best].score && forall k :: at <= k < j ==> AtMost(m[best], m[k]))
    && (max < 0.0 ==> forall k :: at <= k < j ==> m[k].score < 0.0)
  }

  predicate NonNegative(s: seq<Entry>) {
    forall k :: 0 <= k < |s| ==> s[k].score >= 0.0
  }

  ghost predicate OwesScan(key: Title, l: int, r: int, at: int, j: int, best: int, max: real,
                           s: seq<Entry>, m: Mem)
    requires 0 <= l <= at <= best <= r < |m| && at <= j <= r + 1
  {
    && Selecting(key, s, m[l..at], m[at..r + 1])
    && BestSoFar(m, at, j, best, max)
    && NonNegative(m[l..at])
  }

  ghost predicate OwesStamp(key: Title, l: int, r: int, at: int, s: seq<Entry>, m: Mem)
    requires 0 <= l <= at <= r < |m|
  {
    && Selecting(key, s, m[l..at] + [Decorate(key, m[at])], m[at + 1..r + 1])
    && NonNegative(m[l..at]) && (at < r ==> m[at].score >= 0.0)
  }

  /** The merge will end with a finished range. Folded. */
  ghost predicate OwesTake(key: Title, b: Build, lv: nat, i: int, iEnd: int, j: int, jEnd: int, out: seq<Entry>,
                           s: seq<Entry>, m: Mem)
    requires 0 <= i <= iEnd <= j <= jEnd <= |m|
  {
    forall t {:trigger Unfold(TAKING, t)} ::
      Unfold(TAKING, t) && t == out ==>
        exists all :: Delivered(key, b, lv, s, all) && Merging(out, m[i..iEnd], m[j..jEnd], all)
  }

  predicate UnfoldTask(t: Task) { true }

  /** The task stands where the sequential recursion on the range's first content `s` would
      stand at the same point: the inductive invariant. Folded. */
  ghost predicate Owes(key: Title, b: Build, lv: nat, t: Task, s: seq<Entry>, m: Mem)
    decreases t, 1
  {
    forall u {:trigger UnfoldTask(u)} :: UnfoldTask(u) && u == t ==> OwesNow(key, b, lv, u, s, m)
  }

  ghost predicate OwesNow(key: Title, b: Build, lv: nat, t: Task, s: seq<Entry>, m: Mem)
    decreases t, 0
  {
    && Indices(t, |m|)
    && |s| == t.r - t.l + 1
    && match t
       case Call(l, r, level) => m[l..r + 1] == s && level == lv && (b.PROCESS? ==> level <= MAX_LEVEL)
       case Scan(l, r, at, j, best, max) =>
         IsLeaf(b, lv, |s|) && OwesScan(key, l, r, at, j, best, max, s, m)
       case Stamp(l, r, at) => IsLeaf(b, lv, |s|) && OwesStamp(key, l, r, at, s, m)
       case Fork(l, r, left, right) =>
         && !IsLeaf(b, lv, |s|)
         && Owes(key, b, lv + 1, left, Low(s, l, r), m) && Owes(key, b, lv + 1, right, High(s, l, r), m)
       case Left(l, r, level, left) =>
         && b.THREAD? && level == lv && !IsLeaf(b, lv, |s|)
         && Owes(key, b, lv + 1, left, Low(s, l, r), m) && m[Mid(l, r) + 1..r + 1] == High(s, l, r)
       case Right(l, r, right) =>
         && b.THREAD? && !IsLeaf(b, lv, |s|) && Delivered(key, b, lv + 1, Low(s, l, r), m[l..Mid(l, r) + 1])
         && Owes(key, b, lv + 1, right, High(s, l, r), m)
       case Take(l, r, i, j, out) => OwesTake(key, b, lv, i, Mid(l, r) + 1, j, r + 1, out, s, m)
       case Put(l, r, k, out) => Delivered(key, b, lv, s, out) && m[l..l + k] == out[..k]
       case Done(l, r) => Delivered(key, b, lv, s, m[l..r + 1])
       case Gone(l, r) => Abandoned(key, b, lv, s, m[l..r + 1])
  }

  lemma {:induction false} UnfoldOwes(key: Title, b: Build, lv: nat, t: Task, s: seq<Entry>, m: Mem)
    ensures Owes(key, b, lv, t, s, m) <==> OwesNow(key, b, lv, t, s, m)
  {
    assert UnfoldTask(t);
  }

  /** The two halves of the content of l .. r. */
  function Low(s: seq<Entry>, l: int, r: int): seq<Entry>
    requires |s| == r - l + 1 && l <= r
  {
    s[..Mid(l, r) - l + 1]
  }

  function High(s: seq<Entry>, l: int, r: int): seq<Entry>
    requires |s| == r - l + 1 && l <= r
  {
    s[Mid(l, r) - l + 1..]
  }

  ghost predicate SameOn(m: Mem, m': Mem, l: int, r: int) {
    |m'| == |m| && forall k :: 0 <= k < |m| && l <= k <= r ==> m'[k] == m[k]
  }

  ghost predicate SameOff(m: Mem, m': Mem, l: int, r: int) {
    |m'| == |m| && forall k :: 0 <= k < |m| && !(l <= k <= r) ==> m'[k] == m[k]
  }

  lemma {:induction false} Slices(m: Mem, m': Mem, l: int, r: int, i: int, j: int)
    requires SameOn(m, m', l, r) && 0 <= l <= i <= j <= r + 1 <= |m|
    ensures m'[i..j] == m[i..j]
  {
  }

  /** What a task owes depends on its own range only. */
  lemma {:induction false} OwesFrame(key: Title, b: Build, lv: nat, t: Task, s: seq<Entry>, m: Mem, m': Mem)
    requires Owes(key, b, lv, t, s, m) && Indices(t, |m|) && SameOn(m, m', t.l, t.r)
    ensures Owes(key, b, lv, t, s, m')
    decreases t, 1
  {
    if t.Fork? || t.Left? || t.Right? {
      OwesFrameDeep(key, b, lv, t, s, m, m');
    } else if t.Scan? {
      ScanOwesFrame(key, b, lv, t, s, m, m');
    } else if t.Stamp? {
      StampOwesFrame(key, b, lv, t, s, m, m');
    } else if t.Take? {
      TakeOwesFrame(key, b, lv, t, s, m, m');
    } else {
      OwesFrameFlat(key, b, lv, t, s, m, m');
    }
  }

  lemma {:induction false} OwesFrameDeep(key: Title, b: Build, lv: nat, t: Task, s: seq<Entry>, m: Mem, m': Mem)
    requires Owes(key, b, lv, t, s, m) && Indices(t, |m|) && SameOn(m, m', t.l, t.r)
    requires t.Fork? || t.Left? || t.Right?
    ensures Owes(key, b, lv, t, s, m')
    decreases t, 0
  {
    UnfoldOwes(key, b, lv, t, s, m);
    UnfoldOwes(key, b, lv, t, s, m');
    if t.Fork? || t.Left? { OwesFrame(key, b, lv + 1, t.left, Low(s, t.l, t.r), m, m'); }
    if t.Fork? || t.Right? { OwesFrame(key, b, lv + 1, t.right, High(s, t.l, t.r), m, m'); }
    Slices(m, m', t.l, t.r, t.l, Mid(t.l, t.r) + 1);
    Slices(m, m', t.l, t.r, Mid(t.l, t.r) + 1, t.r + 1);
  }

  lemma {:induction false} ScanOwesFrame(key: Title, b: Build, lv: nat, t: Task, s: seq<Entry>, m: Mem, m': Mem)
    requires Owes(key, b, lv, t, s, m) && Indices(t, |m|) && SameOn(m, m', t.l, t.r) && t.Scan?
    ensures Owes(key, b, lv, t, s, m')
  {
    UnfoldOwes(key, b, lv, t, s, m);
    UnfoldOwes(key, b, lv, t, s, m');
    ScanFrame(key, t.l, t.r, t.at, t.j, t.best, t.max, s, m, m');
  }

  lemma {:induction false} StampOwesFrame(key: Title, b: Build, lv: nat, t: Task, s: seq<Entry>, m: Mem, m': Mem)
    requires Owes(key, b, lv, t, s, m) && Indices(t, |m|) && SameOn(m, m', t.l, t.r) && t.Stamp?
    ensures Owes(key, b, lv, t, s, m')
  {
    UnfoldOwes(key, b, lv, t, s, m);
    UnfoldOwes(key, b, lv, t, s, m');
    StampFrame(key, t.l, t.r, t.at, s, m, m');
  }

  lemma {:induction false} TakeOwesFrame(key: Title, b: Build, lv: nat, t: Task, s: seq<Entry>, m: Mem, m': Mem)
    requires Owes(key, b, lv, t, s, m) && Indices(t, |m|) && SameOn(m, m', t.l, t.r) && t.Take?
    ensures Owes(key, b, lv, t, s, m')
  {
    var Take(l, r, i, j, out) := t;
    UnfoldOwes(key, b, lv, Take(l, r, i, j, out), s, m);
    UnfoldOwes(key, b, lv, Take(l, r, i, j, out), s, m');
    TakeFrame(key, b, lv, l, r, i, Mid(l, r) + 1, j, out, s, m, m');
  }

  lemma {:induction false} OwesFrameFlat(key: Title, b: Build, lv: nat, t: Task, s: seq<Entry>, m: Mem, m': Mem)
    requires Owes(key, b, lv, t, s, m) && Indices(t, |m|) && SameOn(m, m', t.l, t.r)
    requires t.Call? || t.Put? || t.Done? || t.Gone?
    ensures Owes(key, b, lv, t, s, m')
  {
    UnfoldOwes(key, b, lv, t, s, m);
    UnfoldOwes(key, b, lv, t, s, m');
    match t
    case Call(l, r, _) => Slices(m, m', l, r, l, r + 1);
    case Put(l, r, k, out) => Slices(m, m', l, r, l, l + k);
    case Done(l, r) => Slices(m, m', l, r, l, r + 1);
    case Gone(l, r) => Slices(m, m', l, r, l, r + 1);
  }

  lemma {:induction false} ScanFrame(key: Title, l: int, r: int, at: int, j: int, best: int, max: real,
                                     s: seq<Entry>, m: Mem, m': Mem)
    requires 0 <= l <= at <= best <= r < |m| && at <= j <= r + 1 && SameOn(m, m', l, r)
    requires OwesScan(key, l, r, at, j, best, max, s, m)
    ensures OwesScan(key, l, r, at, j, best, max, s, m')
  {
    Slices(m, m', l, r, l, at);
    Slices(m, m', l, r, at, r + 1);
  }

  lemma {:induction false} StampFrame(key: Title, l: int, r: int, at: int, s: seq<Entry>, m: Mem, m': Mem)
    requires 0 <= l <= at <= r < |m| && SameOn(m, m', l, r) && OwesStamp(key, l, r, at, s, m)
    ensures OwesStamp(key, l, r, at, s, m')
  {
    Slices(m, m', l, r, l, at);
    Slices(m, m', l, r, at + 1, r + 1);
  }

  lemma {:induction false} TakeFrame(key: Title, b: Build, lv: nat, l: int, r: int, i: int, iEnd: int, j: int, out: seq<Entry>,
                                     s: seq<Entry>, m: Mem, m': Mem)
    requires 0 <= l <= i <= iEnd <= j <= r + 1 <= |m| && SameOn(m, m', l, r)
    requires OwesTake(key, b, lv, i, iEnd, j, r + 1, out, s, m)
    ensures OwesTake(key, b, lv, i, iEnd, j, r + 1, out, s, m')
  {
    assert Unfold(TAKING, out);
    Slices(m, m', l, r, i, iEnd);
    Slices(m, m', l, r, j, r + 1);
  }

  // Each kind of step keeps what the task owes

  lemma {:induction false} StartSelecting(key: Title, s: seq<Entry>)
    ensures Selecting(key, s, [], s)
  {
    assert DecorateAll(key, Ranked(s)) == [] + DecorateAll(key, Ranked(s));
  }

  lemma {:induction false} EnterOwes(key: Title, b: Build, lv: nat, l: int, r: int, s: seq<Entry>, m: Mem)
    requires 0 <= l <= r < |m| && m[l..r + 1] == s
    requires b.PROCESS? ==> lv <= MAX_LEVEL
    ensures OwesNow(key, b, lv, Enter(key, b, l, r, lv, m), s, m)
  {
    if b.THREAD? && r - l + 1 <= SIZE_LIMIT {
      StartSelecting(key, s);
      assert m[l..l] == [];
      SelectOwes(key, b, lv, l, r, l, s, m);
    } else if b.PROCESS? && lv == MAX_LEVEL {
      if Negatives(s) <= 1 { PrivateSortOwes(key, b, lv, l, r, s, m); } else { LeafAbandoned(key, lv, s); }
    } else {
      HalvesOwe(key, b, lv + 1, l, r, s, m);
    }
  }

  lemma {:induction false} HalvesOwe(key: Title, b: Build, lv: nat, l: int, r: int, s: seq<Entry>, m: Mem)
    requires 0 <= l <= r < |m| && m[l..r + 1] == s
    requires b.PROCESS? ==> lv <= MAX_LEVEL
    ensures Owes(key, b, lv, Call(l, Mid(l, r), lv), Low(s, l, r), m)
    ensures Owes(key, b, lv, Call(Mid(l, r) + 1, r, lv), High(s, l, r), m)
    ensures m[Mid(l, r) + 1..r + 1] == High(s, l, r)
  {
    SlicesAreHalves(l, r, s, m);
    UnfoldOwes(key, b, lv, Call(l, Mid(l, r), lv), Low(s, l, r), m);
    UnfoldOwes(key, b, lv, Call(Mid(l, r) + 1, r, lv), High(s, l, r), m);
  }

  lemma {:induction false} SlicesAreHalves(l: int, r: int, s: seq<Entry>, m: Mem)
    requires 0 <= l <= r < |m| && m[l..r + 1] == s
    ensures m[l..Mid(l, r) + 1] == Low(s, l, r) && m[Mid(l, r) + 1..r + 1] == High(s, l, r)
  {
    var mid := Mid(l, r) + 1;
    assert s[..mid - l] == m[l..mid] && s[mid - l..] == m[mid..r + 1];
  }

  lemma {:induction false} PrivateSortOwes(key: Title, b: Build, lv: nat, l: int, r: int, s: seq<Entry>, m: Mem)
    requires 0 <= l <= r < |m| && m[l..r + 1] == s && IsLeaf(b, lv, |s|) && Negatives(s) <= 1
    ensures OwesNow(key, b, lv, Put(l, r, 0, DecorateAll(key, Ranked(s))), s, m)
  {
    RankedSorts(s);
    LeafDelivers(key, b, lv, s, DecorateAll(key, Ranked(s)));
  }

  lemma {:induction false} SelectOwes(key: Title, b: Build, lv: nat, l: int, r: int, at: int, s: seq<Entry>, m: Mem)
    requires 0 <= l <= at <= r < |m| && |s| == r - l + 1 && NonNegative(m[l..at]) && IsLeaf(b, lv, |s|)
    requires Selecting(key, s, m[l..at], m[at..r + 1])
    ensures OwesNow(key, b, lv, Select(l, r, at), s, m)
  {
    if at == r {
      assert m[at..r + 1] == [m[r]] && m[at + 1..r + 1] == [];
      LastSelected(key, s, m[l..r], m[r]);
    }
  }

  /** The last entry needs no search. */
  lemma {:induction false} LastSelected(key: Title, s: seq<Entry>, done: seq<Entry>, e: Entry)
    requires Selecting(key, s, done, [e])
    ensures Selecting(key, s, done + [Decorate(key, e)], [])
  {
    assert [e][1..] == [];
    assert Ranked([e]) == [e] && DecorateAll(key, [e]) == [Decorate(key, e)];
    assert DecorateAll(key, Ranked([])) == [];
    assert done + [Decorate(key, e)] + [] == done + [Decorate(key, e)];
  }

  /** The head of what is left goes behind what is done. */
  lemma {:induction false} SelectNext(key: Title, s: seq<Entry>, done: seq<Entry>, rest: seq<Entry>, best: nat,
                                      after: seq<Entry>)
    requires Selecting(key, s, done, rest) && best < |rest| == |after|
    requires forall k :: 0 <= k < |rest| ==> AtMost(rest[best], rest[k])
    requires after[0] == rest[best] && after[best] == rest[0]
    requires forall k :: 0 < k < |rest| && k != best ==> after[k] == rest[k]
    ensures Selecting(key, s, done + [Decorate(key, after[0])], after[1..])
  {
    var r := RankingOf(rest);
    assert rest[0..|rest|] == rest;
    HeadOfRanking(rest, 0, |rest|, best, r);
    SelectionStep(rest, best, after, r);
    UnfoldRanking(rest, r);
    UnfoldRanking(after[1..], r[1..]);
    DecorateHead(key, r);
    var d, tail := [Decorate(key, after[0])], DecorateAll(key, r[1..]);
    assert done + (d + tail) == done + d + tail;
  }

  lemma {:induction false} DecorateHead(key: Title, r: seq<Entry>)
    requires r != []
    ensures DecorateAll(key, r) == [Decorate(key, r[0])] + DecorateAll(key, r[1..])
  {
  }

  lemma {:induction false} SelectedAll(key: Title, s: seq<Entry>, done: seq<Entry>)
    requires Selecting(key, s, done, [])
    ensures Finished(key, s, done)
  {
    assert Unfold(SELECTING, s);
    assert DecorateAll(key, Ranked([])) == [];
  }

  lemma {:induction false} ScanTurnOwes(key: Title, b: Build, lv: nat, l: int, r: int, at: int, j: int, best: int,
                                        max: real, s: seq<Entry>, m: Mem)
    requires 0 <= l <= at <= best <= r < |m| && at <= j <= r && at < r && |s| == r - l + 1 && IsLeaf(b, lv, |s|)
    requires OwesScan(key, l, r, at, j, best, max, s, m)
    ensures OwesNow(key, b, lv, ScanTurn(l, r, at, j, best, max, m), s, m)
  {
    BestTurn(m, at, j, best, max);
  }

  lemma {:induction false} BestTurn(m: Mem, at: int, j: int, best: int, max: real)
    requires 0 <= at <= best < |m| && at <= j < |m| && BestSoFar(m, at, j, best, max)
    ensures m[j].score > max ==> BestSoFar(m, at, j + 1, j, m[j].score)
    ensures m[j].score == max && StrCmp(m[best].title, m[j].title) > 0 ==> BestSoFar(m, at, j + 1, j, max)
    ensures m[j].score < max || (m[j].score == max && StrCmp(m[best].title, m[j].title) <= 0) ==>
        BestSoFar(m, at, j + 1, best, max)
  {
    AtMostIsTotalOrder(m[j], m[j]);
    StrCmpSign(m[best].title, m[j].title);
    if max >= 0.0 && AtMost(m[j], m[best]) {
      forall k | at <= k < j ensures AtMost(m[j], m[k]) {
        AtMostTransitive(m[j], m[best], m[k]);
      }
    }
  }

  /** The end of argmax's loop, and the swap. */
  lemma {:induction false} SwapOwes(key: Title, l: int, r: int, at: int, best: int, max: real,
                                    s: seq<Entry>, m: Mem, m': Mem)
    requires 0 <= l <= at <= best <= r < |m| && at < r
    requires OwesScan(key, l, r, at, r + 1, best, max, s, m) && max >= 0.0
    requires m' == m[at := m[best]][best := m[at]]
    ensures OwesStamp(key, l, r, at, s, m')
    ensures SameOff(m, m', l, r)
  {
    SwapSlices(m, m', l, at, best, r);
    var rest, after := m[at..r + 1], m'[at..r + 1];
    SelectNext(key, s, m[l..at], rest, best - at, after);
    assert m'[at] == after[0];
  }

  lemma {:induction false} SwapSlices(m: Mem, m': Mem, l: int, at: int, best: int, r: int)
    requires 0 <= l <= at <= best <= r < |m| && m' == m[at := m[best]][best := m[at]]
    requires forall k :: at <= k < r + 1 ==> AtMost(m[best], m[k])
    ensures m'[l..at] == m[l..at] && m'[at..r + 1][1..] == m'[at + 1..r + 1]
    ensures var rest := m[at..r + 1]; forall k :: 0 <= k < |rest| ==> AtMost(rest[best - at], rest[k])
  {
    var rest := m[at..r + 1];
    forall k | 0 <= k < |rest| ensures AtMost(rest[best - at], rest[k]) {
      assert AtMost(m[best], m[at + k]);
    }
  }

  /** The last entry has been placed, and all others have non-negative scores. */
  lemma {:induction false} LeafFine(key: Title, s: seq<Entry>, v: seq<Entry>)
    requires Finished(key, s, v) && |v| == |s| > 0 && NonNegative(v[..|v| - 1])
    ensures Negatives(s) <= 1
  {
    var r := RankingOf(s);
    UnfoldRanking(s, r);
    if |r| >= 2 { assert v[..|v| - 1][|r| - 2] == v[|r| - 2] == Decorate(key, r[|r| - 2]); }
    NoAbortMeansOneNegative(s, r);
  }

  lemma {:induction false} StampOwes(key: Title, b: Build, lv: nat, l: int, r: int, at: int, s: seq<Entry>, m: Mem, m': Mem)
    requires 0 <= l <= at <= r < |m| && |s| == r - l + 1 && IsLeaf(b, lv, |s|) && OwesStamp(key, l, r, at, s, m)
    requires m' == m[at := Decorate(key, m[at])]
    ensures OwesNow(key, b, lv, if at < r then Select(l, r, at + 1) else Done(l, r), s, m')
  {
    assert m'[l..at + 1] == m[l..at] + [Decorate(key, m[at])];
    assert m'[at + 1..r + 1] == m[at + 1..r + 1];
    if at < r {
      assert NonNegative(m'[l..at + 1]);
      SelectOwes(key, b, lv, l, r, at + 1, s, m');
    } else {
      assert m'[at + 1..r + 1] == [];
      SelectedAll(key, s, m'[l..r + 1]);
      assert m'[l..r + 1][..r - l] == m[l..r];
      LeafFine(key, s, m'[l..r + 1]);
      LeafDelivers(key, b, lv, s, m'[l..r + 1]);
    }
  }

  /** The second half is delivered, and the first has ended: the merge starts. */
  lemma {:induction false} JoinOwes(key: Title, b: Build, lv: nat, l: int, r: int, s: seq<Entry>, m: Mem)
    requires 0 <= l <= r < |m| && |s| == r - l + 1 && !IsLeaf(b, lv, |s|)
    requires Ended(key, b, lv + 1, Low(s, l, r), m[l..Mid(l, r) + 1])
    requires Delivered(key, b, lv + 1, High(s, l, r), m[Mid(l, r) + 1..r + 1])
    ensures OwesNow(key, b, lv, Take(l, r, l, Mid(l, r) + 1, []), s, m)
  {
    var va, vb := m[l..Mid(l, r) + 1], m[Mid(l, r) + 1..r + 1];
    var all := StartMerging(va, vb);
    var lo, hi := Low(s, l, r), High(s, l, r);
    assert lo + hi == s;
    NodeDelivers(key, b, lv, lo, hi, va, vb, all);
    assert OwesTake(key, b, lv, l, Mid(l, r) + 1, Mid(l, r) + 1, r + 1, [], s, m);
  }

  /** The process was aborted in its second half. */
  lemma {:induction false} AbortOwes(key: Title, lv: nat, l: int, r: int, s: seq<Entry>, m: Mem)
    requires 0 <= l <= r < |m| && |s| == r - l + 1 && !IsLeaf(PROCESS, lv, |s|)
    requires Ended(key, PROCESS, lv + 1, Low(s, l, r), m[l..Mid(l, r) + 1])
    requires Abandoned(key, PROCESS, lv + 1, High(s, l, r), m[Mid(l, r) + 1..r + 1])
    ensures OwesNow(key, PROCESS, lv, Gone(l, r), s, m)
  {
    var lo, hi := Low(s, l, r), High(s, l, r);
    assert lo + hi == s;
    NodeAbandoned(key, lv, lo, hi, m[l..Mid(l, r) + 1], m[Mid(l, r) + 1..r + 1]);
    assert m[l..r + 1] == m[l..Mid(l, r) + 1] + m[Mid(l, r) + 1..r + 1];
  }

  lemma {:induction false} TakeTurnOwes(key: Title, b: Build, lv: nat, i: int, iEnd: int, j: int, jEnd: int, out: seq<Entry>,
                                        s: seq<Entry>, m: Mem)
    requires 0 <= i <= iEnd <= j <= jEnd <= |m| && OwesTake(key, b, lv, i, iEnd, j, jEnd, out, s, m)
    ensures i < iEnd && (j >= jEnd || Before(m[i], m[j])) ==>
        OwesTake(key, b, lv, i + 1, iEnd, j, jEnd, out + [m[i]], s, m)
    ensures j < jEnd && (i >= iEnd || !Before(m[i], m[j])) ==>
        OwesTake(key, b, lv, i, iEnd, j + 1, jEnd, out + [m[j]], s, m)
    ensures i == iEnd && j == jEnd ==> Delivered(key, b, lv, s, out)
  {
    assert Unfold(TAKING, out);
    var all :| Delivered(key, b, lv, s, all) && Merging(out, m[i..iEnd], m[j..jEnd], all);
    TakeSlices(m, i, iEnd, j, jEnd, out, all);
  }

  /** One turn of the merge loops, as the fold of the two runs sees it. */
  lemma {:induction false} TakeSlices(m: Mem, i: int, iEnd: int, j: int, jEnd: int, out: seq<Entry>, all: seq<Entry>)
    requires 0 <= i <= iEnd <= j <= jEnd <= |m| && Merging(out, m[i..iEnd], m[j..jEnd], all)
    ensures i < iEnd && (j >= jEnd || Before(m[i], m[j])) ==>
        Merging(out + [m[i]], m[i + 1..iEnd], m[j..jEnd], all)
    ensures j < jEnd && (i >= iEnd || !Before(m[i], m[j])) ==>
        Merging(out + [m[j]], m[i..iEnd], m[j + 1..jEnd], all)
    ensures i == iEnd && j == jEnd ==> out == all
  {
    var a, b := m[i..iEnd], m[j..jEnd];
    if i < iEnd && (j >= jEnd || Before(m[i], m[j])) {
      TakeLeft(out, a, b, all);
      assert a[1..] == m[i + 1..iEnd];
    } else if j < jEnd {
      TakeRight(out, a, b, all);
      assert b[1..] == m[j + 1..jEnd];
    } else {
      MergingDone(out, a, b, all);
    }
  }

  lemma {:induction false} PutOwes(key: Title, b: Build, lv: nat, l: int, r: int, k: int, out: seq<Entry>,
                                   s: seq<Entry>, m: Mem, m': Mem)
    requires 0 <= l <= r + 1 <= |m| && 0 <= k <= |out| == r - l + 1 == |s|
    requires Delivered(key, b, lv, s, out) && m[l..l + k] == out[..k]
    requires m' == if k < |out| then m[l + k := out[k]] else m
    ensures OwesNow(key, b, lv, if k < |out| then Put(l, r, k + 1, out) else Done(l, r), s, m')
  {
    if k < |out| {
      assert m'[l..l + k + 1] == m[l..l + k] + [out[k]];
    } else {
      assert out[..k] == out && m[l..l + k] == m[l..r + 1];
    }
  }

  lemma {:induction false} EmptyDelivered(key: Title, b: Build, lv: nat, s: seq<Entry>, v: seq<Entry>)
    requires s == v == []
    ensures Delivered(key, b, lv, s, v)
  {
    assert Negatives(s) == 0 && Ranked(s) == s && DecorateAll(key, s) == v;
    UnfoldEnded(key, b, lv, s, v);
  }

  /** Every step of every task, whatever the other tasks are doing, keeps what the task owes
      and writes inside the task's own range. */
  lemma {:induction false} StepOwes(key: Title, b: Build, lv: nat, t: Task, s: seq<Entry>, m: Mem, t': Task, m': Mem)
    requires Indices(t, |m|) && Owes(key, b, lv, t, s, m) && Step(key, b, t, m, t', m')
    ensures SameOff(m, m', t.l, t.r) && t'.l == t.l && t'.r == t.r
    ensures Indices(t', |m'|) && Owes(key, b, lv, t', s, m')
    decreases t, 1
  {
    UnfoldOwes(key, b, lv, t', s, m');
    if t.Fork? || t.Left? || t.Right? {
      UnfoldOwes(key, b, lv, t, s, m);
      match t
      case Fork(l, r, left, right) => ForkOwes(key, b, lv, l, r, left, right, s, m, t', m');
      case Left(l, r, level, left) => LeftOwes(key, b, lv, l, r, level, left, s, m, t', m');
      case Right(l, r, right) => RightOwes(key, b, lv, l, r, right, s, m, t', m');
    } else {
      FlatOwes(key, b, lv, t, s, m, t', m');
    }
  }

  lemma {:induction false} FlatOwes(key: Title, b: Build, lv: nat, t: Task, s: seq<Entry>, m: Mem, t': Task, m': Mem)
    requires !t.Fork? && !t.Left? && !t.Right?
    requires Indices(t, |m|) && Owes(key, b, lv, t, s, m) && Step(key, b, t, m, t', m')
    ensures SameOff(m, m', t.l, t.r) && t'.l == t.l && t'.r == t.r
    ensures OwesNow(key, b, lv, t', s, m')
  {
    if t.Call? { CallStepOwes(key, b, lv, t, s, m, t', m'); }
    else if t.Scan? { ScanStepOwes(key, b, lv, t, s, m, t', m'); }
    else if t.Stamp? { StampStepOwes(key, b, lv, t, s, m, t', m'); }
    else if t.Take? { TakeStepOwes(key, b, lv, t, s, m, t', m'); }
    else { PutStepOwes(key, b, lv, t, s, m, t', m'); }
  }

  lemma {:induction false} CallStepOwes(key: Title, b: Build, lv: nat, t: Task, s: seq<Entry>, m: Mem, t': Task, m': Mem)
    requires t.Call?
    requires Indices(t, |m|) && Owes(key, b, lv, t, s, m) && Step(key, b, t, m, t', m')
    ensures SameOff(m, m', t.l, t.r) && t'.l == t.l && t'.r == t.r
    ensures OwesNow(key, b, lv, t', s, m')
  {
    UnfoldOwes(key, b, lv, t, s, m);
    if t.l <= t.r { EnterOwes(key, b, lv, t.l, t.r, s, m); } else { EmptyDelivered(key, b, lv, s, m[t.l..t.r + 1]); }
  }

  lemma {:induction false} ScanStepOwes(key: Title, b: Build, lv: nat, t: Task, s: seq<Entry>, m: Mem, t': Task, m': Mem)
    requires t.Scan?
    requires Indices(t, |m|) && Owes(key, b, lv, t, s, m) && Step(key, b, t, m, t', m')
    ensures SameOff(m, m', t.l, t.r) && t'.l == t.l && t'.r == t.r
    ensures OwesNow(key, b, lv, t', s, m')
  {
    UnfoldOwes(key, b, lv, t, s, m);
    var Scan(l, r, at, j, best, max) := t;
    if j <= r {
      ScanTurnOwes(key, b, lv, l, r, at, j, best, max, s, m);
    } else {
      SwapOwes(key, l, r, at, best, max, s, m, m');
    }
  }

  lemma {:induction false} StampStepOwes(key: Title, b: Build, lv: nat, t: Task, s: seq<Entry>, m: Mem, t': Task, m': Mem)
    requires t.Stamp?
    requires Indices(t, |m|) && Owes(key, b, lv, t, s, m) && Step(key, b, t, m, t', m')
    ensures SameOff(m, m', t.l, t.r) && t'.l == t.l && t'.r == t.r
    ensures OwesNow(key, b, lv, t', s, m')
  {
    UnfoldOwes(key, b, lv, t, s, m);
    var Stamp(l, r, at) := t;
    StampOwes(key, b, lv, l, r, at, s, m, m');
  }

  lemma {:induction false} TakeStepOwes(key: Title, b: Build, lv: nat, t: Task, s: seq<Entry>, m: Mem, t': Task, m': Mem)
    requires t.Take?
    requires Indices(t, |m|) && Owes(key, b, lv, t, s, m) && Step(key, b, t, m, t', m')
    ensures SameOff(m, m', t.l, t.r) && t'.l == t.l && t'.r == t.r
    ensures OwesNow(key, b, lv, t', s, m')
  {
    UnfoldOwes(key, b, lv, t, s, m);
    var Take(l, r, i, j, out) := t;
    NextTakeOwes(key, b, lv, l, r, i, j, out, s, m);
  }

  lemma {:induction false} NextTakeOwes(key: Title, b: Build, lv: nat, l: int, r: int, i: int, j: int, out: seq<Entry>,
                                        s: seq<Entry>, m: Mem)
    requires OwesNow(key, b, lv, Take(l, r, i, j, out), s, m)
    ensures var t' := TakeTurn(l, r, i, j, out, m); t'.l == l && t'.r == r && OwesNow(key, b, lv, t', s, m)
  {
    TakeTurnOwes(key, b, lv, i, Mid(l, r) + 1, j, r + 1, out, s, m);
    match TakeTurn(l, r, i, j, out, m)
    case Take(_, _, i', j', out') => TakeOwesNow(key, b, lv, l, r, i', j', out', s, m);
    case Put(_, _, _, _) => PutOwesNow(key, b, lv, l, r, out, s, m);
  }

  lemma {:induction false} PutOwesNow(key: Title, b: Build, lv: nat, l: int, r: int, out: seq<Entry>,
                                      s: seq<Entry>, m: Mem)
    requires Indices(Put(l, r, 0, out), |m|) && |s| == r - l + 1 && Delivered(key, b, lv, s, out)
    ensures OwesNow(key, b, lv, Put(l, r, 0, out), s, m)
  {
    assert m[l..l + 0] == out[..0];
  }

  lemma {:induction false} TakeOwesNow(key: Title, b: Build, lv: nat, l: int, r: int, i: int, j: int, out: seq<Entry>,
                                       s: seq<Entry>, m: Mem)
    requires Indices(Take(l, r, i, j, out), |m|) && |s| == r - l + 1
    requires OwesTake(key, b, lv, i, Mid(l, r) + 1, j, r + 1, out, s, m)
    ensures OwesNow(key, b, lv, Take(l, r, i, j, out), s, m)
  {
  }

  lemma {:induction false} PutStepOwes(key: Title, b: Build, lv: nat, t: Task, s: seq<Entry>, m: Mem, t': Task, m': Mem)
    requires t.Put?
    requires Indices(t, |m|) && Owes(key, b, lv, t, s, m) && Step(key, b, t, m, t', m')
    ensures SameOff(m, m', t.l, t.r) && t'.l == t.l && t'.r == t.r
    ensures OwesNow(key, b, lv, t', s, m')
  {
    UnfoldOwes(key, b, lv, t, s, m);
    PutOwes(key, b, lv, t.l, t.r, t.k, t.out, s, m, m');
  }

  /** A step of a task does not touch the slots i .. j - 1 beside it. */
  lemma {:induction false} StepBeside(key: Title, b: Build, lv: nat, t: Task, s: seq<Entry>, m: Mem,
                                      t': Task, m': Mem, i: int, j: int)
    requires 0 <= i <= j <= |m| && (t.r < i || j <= t.l)
    requires Indices(t, |m|) && Owes(key, b, lv, t, s, m) && Step(key, b, t, m, t', m')
    ensures SameOff(m, m', t.l, t.r) && t'.l == t.l && t'.r == t.r
    ensures Indices(t', |m'|) && Owes(key, b, lv, t', s, m') && m'[i..j] == m[i..j]
    decreases t, 2
  {
    StepOwes(key, b, lv, t, s, m, t', m');
    Slices(m, m', i, j - 1, i, j);
  }

  /** One of two neighbours steps; the other still owes what it owed. */
  lemma {:induction false} NeighbourSteps(key: Title, b: Build, lv: nat, t: Task, s: seq<Entry>, u: Task, su: seq<Entry>,
                                          m: Mem, t': Task, m': Mem)
    requires (t.r < u.l || u.r < t.l)
    requires Indices(t, |m|) && Owes(key, b, lv, t, s, m) && Step(key, b, t, m, t', m')
    requires Indices(u, |m|) && Owes(key, b, lv, u, su, m)
    ensures SameOff(m, m', t.l, t.r) && t'.l == t.l && t'.r == t.r
    ensures Indices(t', |m'|) && Owes(key, b, lv, t', s, m') && Owes(key, b, lv, u, su, m')
    decreases t, 2
  {
    StepOwes(key, b, lv, t, s, m, t', m');
    OwesFrame(key, b, lv, u, su, m, m');
  }

  lemma {:induction false} ForkOwes(key: Title, b: Build, lv: nat, l: int, r: int, left: Task, right: Task,
                                    s: seq<Entry>, m: Mem, t': Task, m': Mem)
    requires OwesNow(key, b, lv, Fork(l, r, left, right), s, m) && Step(key, b, Fork(l, r, left, right), m, t', m')
    ensures SameOff(m, m', l, r) && t'.l == l && t'.r == r && OwesNow(key, b, lv, t', s, m')
    decreases Fork(l, r, left, right), 0
  {
    if Over(left) && Over(right) {
      BothOver(key, b, lv, l, r, left, right, s, m);
    } else {
      ForkMoves(key, b, lv, l, r, left, right, Low(s, l, r), High(s, l, r), m, t'.left, t'.right, m');
    }
  }

  lemma {:induction false} ForkMoves(key: Title, b: Build, lv: nat, l: int, r: int, left: Task, right: Task,
                                     lo: seq<Entry>, hi: seq<Entry>, m: Mem, left': Task, right': Task, m': Mem)
    requires Owes(key, b, lv + 1, left, lo, m) && Owes(key, b, lv + 1, right, hi, m)
    requires Indices(Fork(l, r, left, right), |m|)
    requires || (right' == right && Step(key, b, left, m, left', m'))
             || (left' == left && Step(key, b, right, m, right', m'))
    ensures Indices(Fork(l, r, left', right'), |m'|) && SameOff(m, m', l, r)
    ensures Owes(key, b, lv + 1, left', lo, m') && Owes(key, b, lv + 1, right', hi, m')
    decreases Fork(l, r, left, right), -1
  {
    if right' == right && Step(key, b, left, m, left', m') {
      NeighbourSteps(key, b, lv + 1, left, lo, right, hi, m, left', m');
    } else {
      NeighbourSteps(key, b, lv + 1, right, hi, left, lo, m, right', m');
    }
  }

  lemma {:induction false} DoneDelivers(key: Title, b: Build, lv: nat, t: Task, l: int, r: int, s: seq<Entry>, m: Mem)
    requires Owes(key, b, lv, t, s, m) && t == Done(l, r) && 0 <= l <= r + 1 <= |m|
    ensures Delivered(key, b, lv, s, m[l..r + 1])
  {
    UnfoldOwes(key, b, lv, Done(l, r), s, m);
  }

  lemma {:induction false} OverEnds(key: Title, b: Build, lv: nat, t: Task, l: int, r: int, s: seq<Entry>, m: Mem)
    requires Owes(key, b, lv, t, s, m) && Over(t) && t.l == l && t.r == r && 0 <= l <= r + 1 <= |m|
    ensures Ended(key, b, lv, s, m[l..r + 1])
    ensures t.Gone? ==> b.PROCESS? && Abandoned(key, b, lv, s, m[l..r + 1])
  {
    UnfoldOwes(key, b, lv, t, s, m);
  }

  lemma {:induction false} BothOver(key: Title, b: Build, lv: nat, l: int, r: int, left: Task, right: Task,
                                    s: seq<Entry>, m: Mem)
    requires Over(left) && Over(right)
    requires OwesNow(key, b, lv, Fork(l, r, left, right), s, m)
    ensures right.Done? ==> OwesNow(key, b, lv, Take(l, r, l, Mid(l, r) + 1, []), s, m)
    ensures right.Gone? ==> OwesNow(key, b, lv, Gone(l, r), s, m)
  {
    OverEnds(key, b, lv + 1, left, l, Mid(l, r), Low(s, l, r), m);
    OverEnds(key, b, lv + 1, right, Mid(l, r) + 1, r, High(s, l, r), m);
    if right.Done? {
      DoneDelivers(key, b, lv + 1, right, Mid(l, r) + 1, r, High(s, l, r), m);
      JoinOwes(key, b, lv, l, r, s, m);
    } else {
      AbortOwes(key, lv, l, r, s, m);
    }
  }

  lemma {:induction false} LeftOwes(key: Title, b: Build, lv: nat, l: int, r: int, level: nat, left: Task,
                                    s: seq<Entry>, m: Mem, t': Task, m': Mem)
    requires OwesNow(key, b, lv, Left(l, r, level, left), s, m) && Step(key, b, Left(l, r, level, left), m, t', m')
    ensures SameOff(m, m', l, r) && t'.l == l && t'.r == r && OwesNow(key, b, lv, t', s, m')
    decreases Left(l, r, level, left), 0
  {
    if left.Done? {
      LeftDone(key, b, lv, l, r, level, left, s, m);
    } else {
      StepBeside(key, b, lv + 1, left, Low(s, l, r), m, t'.left, m', Mid(l, r) + 1, r + 1);
      LeftOwesNow(key, b, lv, l, r, level, t'.left, s, m');
    }
  }

  lemma {:induction false} LeftOwesNow(key: Title, b: Build, lv: nat, l: int, r: int, level: nat, left: Task,
                                       s: seq<Entry>, m: Mem)
    requires b.THREAD? && level == lv && Indices(Left(l, r, level, left), |m|) && |s| == r - l + 1 && !IsLeaf(b, lv, |s|)
    requires Owes(key, b, lv + 1, left, Low(s, l, r), m) && m[Mid(l, r) + 1..r + 1] == High(s, l, r)
    ensures OwesNow(key, b, lv, Left(l, r, level, left), s, m)
  {
  }

  lemma {:induction false} LeftDone(key: Title, b: Build, lv: nat, l: int, r: int, level: nat, left: Task,
                                    s: seq<Entry>, m: Mem)
    requires left.Done? && OwesNow(key, b, lv, Left(l, r, level, left), s, m)
    ensures OwesNow(key, b, lv, Right(l, r, Call(Mid(l, r) + 1, r, level + 1)), s, m)
  {
    DoneDelivers(key, b, lv + 1, left, l, Mid(l, r), Low(s, l, r), m);
    UnfoldOwes(key, b, lv + 1, Call(Mid(l, r) + 1, r, level + 1), High(s, l, r), m);
  }

  lemma {:induction false} RightOwes(key: Title, b: Build, lv: nat, l: int, r: int, right: Task,
                                     s: seq<Entry>, m: Mem, t': Task, m': Mem)
    requires OwesNow(key, b, lv, Right(l, r, right), s, m) && Step(key, b, Right(l, r, right), m, t', m')
    ensures SameOff(m, m', l, r) && t'.l == l && t'.r == r && OwesNow(key, b, lv, t', s, m')
    decreases Right(l, r, right), 0
  {
    if right.Done? {
      RightDone(key, b, lv, l, r, right, s, m);
    } else {
      StepBeside(key, b, lv + 1, right, High(s, l, r), m, t'.right, m', l, Mid(l, r) + 1);
      RightOwesNow(key, b, lv, l, r, t'.right, s, m');
    }
  }

  lemma {:induction false} RightOwesNow(key: Title, b: Build, lv: nat, l: int, r: int, right: Task,
                                        s: seq<Entry>, m: Mem)
    requires b.THREAD? && Indices(Right(l, r, right), |m|) && |s| == r - l + 1 && !IsLeaf(b, lv, |s|)
    requires Delivered(key, b, lv + 1, Low(s, l, r), m[l..Mid(l, r) + 1]) && Owes(key, b, lv + 1, right, High(s, l, r), m)
    ensures OwesNow(key, b, lv, Right(l, r, right), s, m)
  {
  }

  lemma {:induction false} RightDone(key: Title, b: Build, lv: nat, l: int, r: int, right: Task, s: seq<Entry>, m: Mem)
    requires right.Done? && OwesNow(key, b, lv, Right(l, r, right), s, m)
    ensures OwesNow(key, b, lv, Take(l, r, l, Mid(l, r) + 1, []), s, m)
  {
    DoneDelivers(key, b, lv + 1, right, Mid(l, r) + 1, r, High(s, l, r), m);
    JoinOwes(key, b, lv, l, r, s, m);
  }
}
