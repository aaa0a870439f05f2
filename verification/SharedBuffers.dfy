/** The PROCESS build one level down: a slot of the shared range holds a score and a pointer to
    a shared buffer. Merges move pointers, leaves overwrite the buffers their slots point to.
    Every run of this machine is a run of the fork/join machine on what the slots show. */
module SharedBuffers {
  import opened Titles
  import opened Ranking
  import opened Selection
  import opened SortTree
  import opened ForkJoin
  import opened ForkJoinRuns

  datatype Cell = Cell(score: real, slot: int)

  /** The shared range, and the text of every shared buffer by its address. */
  datatype Shared = Shared(cells: seq<Cell>, text: map<int, Title>)

  datatype PTask =
    | PCall(l: int, r: int, level: nat)
    | PFork(l: int, r: int, left: PTask, right: PTask)               // child process, and this one
    | PTake(l: int, r: int, i: int, j: int, out: seq<Cell>)          // merge
    | PPut(l: int, r: int, k: int, out: seq<Cell>)                   // merge: copying pointers back
    | PWrite(l: int, r: int, k: int, sorted: seq<Entry>)             // leaf: score store and strcpy
    | PDone(l: int, r: int)
    | PGone(l: int, r: int)     // aborted in argmax, and all that it had forked has ended

  // What the slots show

  function Show(c: Cell, text: map<int, Title>): Entry {
    Entry(c.score, if c.slot in text then text[c.slot] else [])
  }

  function Shown(cells: seq<Cell>, text: map<int, Title>): (m: Mem)
    ensures |m| == |cells|
  {
    seq(|cells|, x requires 0 <= x < |cells| => Show(cells[x], text))
  }

  predicate PIndices(t: PTask, n: nat) {
    && 0 <= t.l <= t.r + 1 <= n
    && match t
       case PCall(_, _, level) => level <= MAX_LEVEL
       case PFork(l, r, left, right) =>
         && l <= r && left.l == l && left.r == Mid(l, r) && right.l == Mid(l, r) + 1 && right.r == r
         && PIndices(left, n) && PIndices(right, n)
       case PTake(l, r, i, j, out) =>
         l <= r && l <= i <= Mid(l, r) + 1 <= j <= r + 1 && |out| == i - l + j - Mid(l, r) - 1
       case PPut(l, r, k, out) => 0 <= k <= |out| == r - l + 1
       case PWrite(l, r, k, sorted) => 0 <= k <= |sorted| == r - l + 1
       case PDone(_, _) => true
       case PGone(_, _) => true
  }

  // Steps

  function PEnter(key: Title, l: int, r: int, level: nat, p: Shared): PTask
    requires 0 <= l <= r < |p.cells|
  {
    var s := Shown(p.cells, p.text)[l..r + 1];
    if level == MAX_LEVEL then
      if Negatives(s) <= 1 then PWrite(l, r, 0, DecorateAll(key, Ranked(s))) else PGone(l, r)
    else PFork(l, r, PCall(l, Mid(l, r), level + 1), PCall(Mid(l, r) + 1, r, level + 1))
  }

  function PTakeTurn(l: int, r: int, i: int, j: int, out: seq<Cell>, p: Shared): PTask
    requires 0 <= i <= Mid(l, r) + 1 <= j <= r + 1 <= |p.cells|
  {
    if i <= Mid(l, r) && (j > r || Before(Show(p.cells[i], p.text), Show(p.cells[j], p.text)))
    then PTake(l, r, i + 1, j, out + [p.cells[i]])
    else if j <= r then PTake(l, r, i, j + 1, out + [p.cells[j]])
    else PPut(l, r, 0, out)
  }

  /** One turn of the leaf's copy back: the score into slot x, the text into the buffer that
      slot x points to. */
  function WriteThrough(p: Shared, x: int, e: Entry): Shared
    requires 0 <= x < |p.cells|
  {
    Shared(p.cells[x := Cell(e.score, p.cells[x].slot)], p.text[p.cells[x].slot := e.title])
  }

  predicate POver(t: PTask) { t.PDone? || t.PGone? }

  predicate PStep(key: Title, t: PTask, p: Shared, t': PTask, p': Shared)
    requires PIndices(t, |p.cells|)
    decreases t
  {
    match t
    case PCall(l, r, level) => p' == p && t' == if l > r then PDone(l, r) else PEnter(key, l, r, level, p)
    case PFork(l, r, left, right) =>
      if POver(left) && right.PDone? then p' == p && t' == PTake(l, r, l, Mid(l, r) + 1, [])
      else if POver(left) && right.PGone? then p' == p && t' == PGone(l, r)
      else
        && t'.PFork? && t'.l == l && t'.r == r
        && ( || (t'.right == right && PStep(key, left, p, t'.left, p'))
             || (t'.left == left && PStep(key, right, p, t'.right, p')))
    case PTake(l, r, i, j, out) => p' == p && t' == PTakeTurn(l, r, i, j, out, p)
    case PPut(l, r, k, out) =>
      if k < |out| then p' == Shared(p.cells[l + k := out[k]], p.text) && t' == PPut(l, r, k + 1, out)
      else p' == p && t' == PDone(l, r)
    case PWrite(l, r, k, sorted) =>
      if k < |sorted| then p' == WriteThrough(p, l + k, sorted[k]) && t' == PWrite(l, r, k + 1, sorted)
      else p' == p && t' == PDone(l, r)
    case PDone(_, _) => false
    case PGone(_, _) => false
  }

  // Which buffers a range holds

  /** The buffers that slots i .. j - 1 point to. */
  function Slots(cells: seq<Cell>, i: int, j: int): set<int>
    requires 0 <= i <= j <= |cells|
  {
    set x | i <= x < j :: cells[x].slot
  }

  /** No two of slots i .. j - 1 point to the same buffer. */
  ghost predicate Distinct(cells: seq<Cell>, i: int, j: int)
    requires 0 <= i <= j <= |cells|
  {
    forall x, y :: i <= x < y < j ==> cells[x].slot != cells[y].slot
  }

  lemma {:induction false} SlotsSplit(cells: seq<Cell>, i: int, k: int, j: int)
    requires 0 <= i <= k <= j <= |cells|
    ensures Slots(cells, i, j) == Slots(cells, i, k) + Slots(cells, k, j)
    ensures Distinct(cells, i, j) ==>
        Distinct(cells, i, k) && Distinct(cells, k, j) && Slots(cells, i, k) !! Slots(cells, k, j)
  {
  }

  lemma {:induction false} SlotsJoin(cells: seq<Cell>, i: int, k: int, j: int)
    requires 0 <= i <= k <= j <= |cells|
    requires Distinct(cells, i, k) && Distinct(cells, k, j) && Slots(cells, i, k) !! Slots(cells, k, j)
    ensures Distinct(cells, i, j)
  {
    forall x, y | i <= x < y < j ensures cells[x].slot != cells[y].slot {
      if x < k <= y { assert cells[x].slot in Slots(cells, i, k) && cells[y].slot in Slots(cells, k, j); }
    }
  }

  lemma {:induction false} SlotsFrame(cells: seq<Cell>, cells': seq<Cell>, i: int, j: int)
    requires 0 <= i <= j <= |cells| == |cells'|
    requires forall x :: i <= x < j ==> cells'[x].slot == cells[x].slot
    ensures Slots(cells', i, j) == Slots(cells, i, j)
    ensures Distinct(cells', i, j) <==> Distinct(cells, i, j)
  {
  }

  lemma {:induction false} SlotsAppend(out: seq<Cell>, c: Cell)
    requires Distinct(out, 0, |out|) && c.slot !in Slots(out, 0, |out|)
    ensures Slots(out + [c], 0, |out| + 1) == Slots(out, 0, |out|) + {c.slot}
    ensures Distinct(out + [c], 0, |out| + 1)
  {
    var out' := out + [c];
    assert out'[|out|] == c;
    assert forall x :: 0 <= x < |out| ==> out'[x] == out[x];
  }

  lemma {:induction false} SlotsShift(cells: seq<Cell>, l: int, out: seq<Cell>)
    requires 0 <= l && l + |out| <= |cells|
    requires forall x :: l <= x < l + |out| ==> cells[x] == out[x - l]
    ensures Slots(cells, l, l + |out|) == Slots(out, 0, |out|)
    ensures Distinct(out, 0, |out|) ==> Distinct(cells, l, l + |out|)
  {
    forall x | 0 <= x < |out| ensures out[x].slot in Slots(cells, l, l + |out|) {
      assert cells[l + x] == out[x];
    }
  }

  /** The buffers a task is responsible for. */
  function Own(t: PTask, cells: seq<Cell>): set<int>
    requires PIndices(t, |cells|)
  {
    match t
    case PFork(_, _, left, right) => Own(left, cells) + Own(right, cells)
    case PPut(_, _, _, out) => Slots(out, 0, |out|)
    case _ => Slots(cells, t.l, t.r + 1)
  }

  /** The merge buffer `out` holds the pointers of l .. i - 1 and mid .. j - 1. */
  ghost predicate HoldsTake(l: int, i: int, mid: int, j: int, out: seq<Cell>, cells: seq<Cell>)
    requires 0 <= l <= i <= mid <= j <= |cells|
  {
    && Distinct(out, 0, |out|)
    && Slots(out, 0, |out|) == Slots(cells, l, i) + Slots(cells, mid, j)
  }

  ghost predicate HoldsPut(l: int, k: int, out: seq<Cell>, cells: seq<Cell>)
    requires 0 <= l && 0 <= k <= |out| && l + |out| <= |cells|
  {
    && Distinct(out, 0, |out|)
    && (forall x :: l <= x < l + |out| ==> cells[x].slot in Slots(out, 0, |out|))
    && (forall x :: l <= x < l + k ==> cells[x] == out[x - l])
  }

  /** No buffer is lost or held twice: the inductive invariant of the pointers. */
  ghost predicate Holding(t: PTask, cells: seq<Cell>)
    decreases t
  {
    && PIndices(t, |cells|)
    && match t
       case PFork(_, _, left, right) =>
         Holding(left, cells) && Holding(right, cells) && Own(left, cells) !! Own(right, cells)
       case PTake(l, r, i, j, out) =>
         Distinct(cells, l, r + 1) && HoldsTake(l, i, Mid(l, r) + 1, j, out, cells)
       case PPut(l, r, k, out) => HoldsPut(l, k, out, cells)
       case _ => Distinct(cells, t.l, t.r + 1)
  }

  /** The fork/join task that a task stands for. */
  function Abs(t: PTask, text: map<int, Title>): Task {
    match t
    case PCall(l, r, level) => Call(l, r, level)
    case PFork(l, r, left, right) => Fork(l, r, Abs(left, text), Abs(right, text))
    case PTake(l, r, i, j, out) => Take(l, r, i, j, Shown(out, text))
    case PPut(l, r, k, out) => Put(l, r, k, Shown(out, text))
    case PWrite(l, r, k, sorted) => Put(l, r, k, sorted)
    case PDone(l, r) => Done(l, r)
    case PGone(l, r) => Gone(l, r)
  }

  lemma {:induction false} AbsIndices(t: PTask, text: map<int, Title>, n: nat)
    requires PIndices(t, n)
    ensures Indices(Abs(t, text), n) && Abs(t, text).l == t.l && Abs(t, text).r == t.r
    decreases t
  {
    if t.PFork? {
      AbsIndices(t.left, text, n);
      AbsIndices(t.right, text, n);
    }
  }

  /** A task holds every buffer that a slot of its range points to. */
  lemma {:induction false} OwnCovers(t: PTask, cells: seq<Cell>, x: int)
    requires Holding(t, cells) && PIndices(t, |cells|) && t.l <= x <= t.r
    ensures cells[x].slot in Own(t, cells)
    decreases t
  {
    if t.PFork? {
      if x <= Mid(t.l, t.r) { OwnCovers(t.left, cells, x); } else { OwnCovers(t.right, cells, x); }
    }
  }

  // A step of another task changes nothing for this one

  /** Slots l .. r and the buffers of `own` are as they were. */
  ghost predicate Kept(l: int, r: int, own: set<int>, p: Shared, p': Shared) {
    && |p'.cells| == |p.cells|
    && (forall x :: 0 <= x < |p.cells| && l <= x <= r ==> p'.cells[x] == p.cells[x])
    && (forall b :: b in own ==> (b in p'.text <==> b in p.text) && (b in p.text ==> p'.text[b] == p.text[b]))
  }

  /** Nothing but slots l .. r and the buffers of `own` has changed. */
  ghost predicate Confined(l: int, r: int, own: set<int>, p: Shared, p': Shared) {
    && |p'.cells| == |p.cells|
    && (forall x :: 0 <= x < |p.cells| && !(l <= x <= r) ==> p'.cells[x] == p.cells[x])
    && (forall b :: b !in own ==> (b in p'.text <==> b in p.text) && (b in p.text ==> p'.text[b] == p.text[b]))
  }

  lemma {:induction false} ShownFrame(out: seq<Cell>, own: set<int>, l: int, r: int, p: Shared, p': Shared)
    requires Kept(l, r, own, p, p') && Slots(out, 0, |out|) <= own
    ensures Shown(out, p'.text) == Shown(out, p.text)
  {
    forall x | 0 <= x < |out| ensures Show(out[x], p'.text) == Show(out[x], p.text) {
      assert out[x].slot in Slots(out, 0, |out|);
    }
  }

  lemma {:induction false} OthersKeep(u: PTask, p: Shared, p': Shared)
    requires Holding(u, p.cells) && PIndices(u, |p.cells|) && Kept(u.l, u.r, Own(u, p.cells), p, p')
    ensures Holding(u, p'.cells) && Own(u, p'.cells) == Own(u, p.cells)
    ensures Abs(u, p'.text) == Abs(u, p.text)
    decreases u
  {
    if u.PFork? {
      OthersKeep(u.left, p, p');
      OthersKeep(u.right, p, p');
    } else {
      OtherKeepsFlat(u, p, p');
    }
  }

  lemma {:induction false} OtherKeepsFlat(u: PTask, p: Shared, p': Shared)
    requires Holding(u, p.cells) && PIndices(u, |p.cells|) && Kept(u.l, u.r, Own(u, p.cells), p, p')
    requires !u.PFork?
    ensures Holding(u, p'.cells) && Own(u, p'.cells) == Own(u, p.cells)
    ensures Abs(u, p'.text) == Abs(u, p.text)
  {
    if u.PTake? {
      TakeKeeps(u.l, u.i, Mid(u.l, u.r) + 1, u.j, u.r + 1, u.out, p, p');
    } else if u.PPut? {
      ShownFrame(u.out, Own(u, p.cells), u.l, u.r, p, p');
    } else {
      SlotsFrame(p.cells, p'.cells, u.l, u.r + 1);
    }
  }

  lemma {:induction false} TakeKeeps(l: int, i: int, mid: int, j: int, end: int, out: seq<Cell>,
                                     p: Shared, p': Shared)
    requires 0 <= l <= i <= mid <= j <= end <= |p.cells| && HoldsTake(l, i, mid, j, out, p.cells)
    requires Kept(l, end - 1, Slots(p.cells, l, end), p, p')
    ensures Slots(p'.cells, l, end) == Slots(p.cells, l, end)
    ensures Distinct(p'.cells, l, end) <==> Distinct(p.cells, l, end)
    ensures HoldsTake(l, i, mid, j, out, p'.cells)
    ensures Shown(out, p'.text) == Shown(out, p.text)
  {
    SlotsFrame(p.cells, p'.cells, l, end);
    SlotsFrame(p.cells, p'.cells, l, i);
    SlotsFrame(p.cells, p'.cells, mid, j);
    ShownFrame(out, Slots(p.cells, l, end), l, end - 1, p, p');
  }

  // Each step keeps the buffers together

  lemma {:induction false} HalvesHold(l: int, r: int, level: nat, cells: seq<Cell>)
    requires 0 <= l <= r < |cells| && Distinct(cells, l, r + 1) && level <= MAX_LEVEL
    ensures var t := PFork(l, r, PCall(l, Mid(l, r), level), PCall(Mid(l, r) + 1, r, level));
      Holding(t, cells) && Own(t, cells) == Slots(cells, l, r + 1)
  {
    var a, b := PCall(l, Mid(l, r), level), PCall(Mid(l, r) + 1, r, level);
    SlotsSplit(cells, l, Mid(l, r) + 1, r + 1);
  }

  lemma {:induction false} BothOverHold(l: int, r: int, left: PTask, right: PTask, cells: seq<Cell>)
    requires Holding(PFork(l, r, left, right), cells) && POver(left) && POver(right)
    ensures Holding(PGone(l, r), cells) && Own(PGone(l, r), cells) == Own(PFork(l, r, left, right), cells)
    ensures Holding(PTake(l, r, l, Mid(l, r) + 1, []), cells)
    ensures Own(PTake(l, r, l, Mid(l, r) + 1, []), cells) == Own(PFork(l, r, left, right), cells)
  {
    SlotsSplit(cells, l, Mid(l, r) + 1, r + 1);
    SlotsJoin(cells, l, Mid(l, r) + 1, r + 1);
  }

  lemma {:induction false} TakeLeftHolds(l: int, i: int, mid: int, j: int, end: int, out: seq<Cell>, cells: seq<Cell>)
    requires 0 <= l <= i < mid <= j <= end <= |cells| && Distinct(cells, l, end)
    requires HoldsTake(l, i, mid, j, out, cells)
    ensures HoldsTake(l, i + 1, mid, j, out + [cells[i]], cells)
  {
    SlotsAppend(out, cells[i]);
  }

  lemma {:induction false} TakeRightHolds(l: int, i: int, mid: int, j: int, end: int, out: seq<Cell>, cells: seq<Cell>)
    requires 0 <= l <= i <= mid <= j < end <= |cells| && Distinct(cells, l, end)
    requires HoldsTake(l, i, mid, j, out, cells)
    ensures HoldsTake(l, i, mid, j + 1, out + [cells[j]], cells)
  {
    SlotsAppend(out, cells[j]);
  }

  lemma {:induction false} PutTurnHolds(l: int, k: int, out: seq<Cell>, cells: seq<Cell>)
    requires 0 <= l && 0 <= k < |out| && l + |out| <= |cells| && HoldsPut(l, k, out, cells)
    ensures HoldsPut(l, k + 1, out, cells[l + k := out[k]])
  {
    assert out[k].slot in Slots(out, 0, |out|);
  }

  /** What a step keeps: the invariant, and every buffer in its owner's hands. */
  ghost predicate Keeps(t: PTask, p: Shared, t': PTask, p': Shared)
    requires PIndices(t, |p.cells|)
  {
    && Holding(t', p'.cells) && Own(t', p'.cells) == Own(t, p.cells) && t'.l == t.l && t'.r == t.r
    && Confined(t.l, t.r, Own(t, p.cells), p, p')
  }

  lemma {:induction false} CallKeeps(key: Title, t: PTask, p: Shared, t': PTask, p': Shared)
    requires t.PCall? && Holding(t, p.cells) && PStep(key, t, p, t', p')
    ensures Keeps(t, p, t', p')
  {
    if t.l <= t.r && t.level < MAX_LEVEL {
      HalvesHold(t.l, t.r, t.level + 1, p.cells);
    } else if t.l <= t.r {
      LeafHolds(key, t.l, t.r, p);
    }
  }

  lemma {:induction false} LeafHolds(key: Title, l: int, r: int, p: Shared)
    requires 0 <= l <= r < |p.cells| && Distinct(p.cells, l, r + 1)
    ensures Holding(PEnter(key, l, r, MAX_LEVEL, p), p.cells)
    ensures Own(PEnter(key, l, r, MAX_LEVEL, p), p.cells) == Slots(p.cells, l, r + 1)
  {
    RankedSorts(Shown(p.cells, p.text)[l..r + 1]);
  }

  lemma {:induction false} TakeStepKeeps(key: Title, t: PTask, p: Shared, t': PTask, p': Shared)
    requires t.PTake? && Holding(t, p.cells) && PStep(key, t, p, t', p')
    ensures Keeps(t, p, t', p')
  {
    var PTake(l, r, i, j, out) := t;
    TakeTurnKeeps(l, r, i, j, out, p);
  }

  lemma {:induction false} TakeTurnKeeps(l: int, r: int, i: int, j: int, out: seq<Cell>, p: Shared)
    requires Holding(PTake(l, r, i, j, out), p.cells)
    ensures Holding(PTakeTurn(l, r, i, j, out, p), p.cells)
    ensures Own(PTakeTurn(l, r, i, j, out, p), p.cells) == Slots(p.cells, l, r + 1)
  {
    var t' := PTakeTurn(l, r, i, j, out, p);
    if t'.PPut? {
      PutStarts(l, r, i, j, out, p.cells);
    } else if t'.i > i {
      TakeLeftHolds(l, i, Mid(l, r) + 1, j, r + 1, out, p.cells);
    } else {
      TakeRightHolds(l, i, Mid(l, r) + 1, j, r + 1, out, p.cells);
    }
  }

  lemma {:induction false} PutStarts(l: int, r: int, i: int, j: int, out: seq<Cell>, cells: seq<Cell>)
    requires Holding(PTake(l, r, i, j, out), cells) && i == Mid(l, r) + 1 && j == r + 1
    ensures Holding(PPut(l, r, 0, out), cells)
    ensures Own(PPut(l, r, 0, out), cells) == Own(PTake(l, r, i, j, out), cells)
  {
    SlotsSplit(cells, l, i, j);
    forall x | l <= x < l + |out| ensures cells[x].slot in Slots(out, 0, |out|) {
      assert cells[x].slot in Slots(cells, l, j);
    }
  }

  lemma {:induction false} PutStepKeeps(key: Title, t: PTask, p: Shared, t': PTask, p': Shared)
    requires t.PPut? && Holding(t, p.cells) && PStep(key, t, p, t', p')
    ensures Keeps(t, p, t', p')
  {
    var PPut(l, r, k, out) := t;
    if k < |out| {
      PutTurnHolds(l, k, out, p.cells);
    } else {
      SlotsShift(p.cells, l, out);
      assert l + |out| == r + 1;
    }
  }

  lemma {:induction false} WriteStepKeeps(key: Title, t: PTask, p: Shared, t': PTask, p': Shared)
    requires t.PWrite? && Holding(t, p.cells) && PStep(key, t, p, t', p')
    ensures Keeps(t, p, t', p')
  {
    if t.k < |t.sorted| {
      assert p.cells[t.l + t.k].slot in Slots(p.cells, t.l, t.r + 1);
      SlotsFrame(p.cells, p'.cells, t.l, t.r + 1);
    }
  }

  // What the slots show makes the corresponding step

  /** The step of the fork/join machine that a pointer-level step shows. */
  predicate Shows(key: Title, t: PTask, p: Shared, t': PTask, p': Shared)
    requires PIndices(t, |p.cells|)
  {
    && Indices(Abs(t, p.text), |p.cells|)
    && Step(key, PROCESS, Abs(t, p.text), Shown(p.cells, p.text), Abs(t', p'.text), Shown(p'.cells, p'.text))
  }

  lemma {:induction false} CallShows(key: Title, t: PTask, p: Shared, t': PTask)
    requires t.PCall? && Holding(t, p.cells) && PStep(key, t, p, t', p)
    ensures Shows(key, t, p, t', p)
  {
  }

  lemma {:induction false} TakeShows(key: Title, t: PTask, p: Shared, t': PTask)
    requires t.PTake? && Holding(t, p.cells) && PStep(key, t, p, t', p)
    ensures Shows(key, t, p, t', p)
  {
    var PTake(l, r, i, j, out) := t;
    if i < |p.cells| { ShownAppend(out, p.cells[i], p.text); }
    if j < |p.cells| { ShownAppend(out, p.cells[j], p.text); }
  }

  lemma {:induction false} ShownAppend(out: seq<Cell>, c: Cell, text: map<int, Title>)
    ensures Shown(out + [c], text) == Shown(out, text) + [Show(c, text)]
  {
  }

  lemma {:induction false} PutShows(key: Title, t: PTask, p: Shared, t': PTask, p': Shared)
    requires t.PPut? && Holding(t, p.cells) && PStep(key, t, p, t', p')
    ensures Shows(key, t, p, t', p')
  {
    if t.k < |t.out| {
      assert Shown(p'.cells, p.text) == Shown(p.cells, p.text)[t.l + t.k := Shown(t.out, p.text)[t.k]];
    }
  }

  /** Slots outside the task's range do not point to its buffers. */
  ghost predicate Apart(l: int, r: int, own: set<int>, cells: seq<Cell>) {
    forall x :: 0 <= x < |cells| && !(l <= x <= r) ==> cells[x].slot !in own
  }

  /** The leaf's strcpy changes what one slot shows and no other, because no other slot points
      to that buffer. */
  lemma {:induction false} WriteThroughShows(p: Shared, l: int, r: int, at: int, e: Entry)
    requires 0 <= l <= at <= r < |p.cells| && Distinct(p.cells, l, r + 1)
    requires Apart(l, r, Slots(p.cells, l, r + 1), p.cells)
    ensures var p' := WriteThrough(p, at, e); Shown(p'.cells, p'.text) == Shown(p.cells, p.text)[at := e]
  {
    var p' := WriteThrough(p, at, e);
    assert p.cells[at].slot in Slots(p.cells, l, r + 1);
    forall x | 0 <= x < |p.cells| && x != at ensures Show(p'.cells[x], p'.text) == Show(p.cells[x], p.text) {
      assert p.cells[x].slot != p.cells[at].slot;
    }
  }

  lemma {:induction false} WriteShows(key: Title, t: PTask, p: Shared, t': PTask, p': Shared)
    requires t.PWrite? && Holding(t, p.cells) && PStep(key, t, p, t', p')
    requires Apart(t.l, t.r, Own(t, p.cells), p.cells)
    ensures Shows(key, t, p, t', p')
  {
    if t.k < |t.sorted| { WriteThroughShows(p, t.l, t.r, t.l + t.k, t.sorted[t.k]); }
  }

  lemma {:induction false} BothOverShow(key: Title, t: PTask, p: Shared, t': PTask)
    requires t.PFork? && POver(t.left) && POver(t.right) && Holding(t, p.cells) && PStep(key, t, p, t', p)
    ensures Shows(key, t, p, t', p)
  {
    assert Shown([], p.text) == [];
  }

  // Every step of every process

  /** The part of l .. r that one child owns is apart from the rest. */
  lemma {:induction false} ChildApart(l: int, r: int, own: set<int>, c: PTask, d: PTask, cells: seq<Cell>)
    requires Apart(l, r, own, cells) && PIndices(c, |cells|) && PIndices(d, |cells|) && Holding(d, cells)
    requires Own(c, cells) <= own && Own(c, cells) !! Own(d, cells)
    requires (c.l == l && c.r == d.l - 1 && d.r == r) || (d.l == l && d.r == c.l - 1 && c.r == r)
    ensures Apart(c.l, c.r, Own(c, cells), cells)
  {
    forall x | 0 <= x < |cells| && !(c.l <= x <= c.r) ensures cells[x].slot !in Own(c, cells) {
      if l <= x <= r { OwnCovers(d, cells, x); }
    }
  }

  /** One child has stepped; its sibling stands where it stood and shows what it showed. */
  lemma {:induction false} SiblingKeeps(c: PTask, d: PTask, p: Shared, c': PTask, p': Shared)
    requires PIndices(c, |p.cells|) && PIndices(d, |p.cells|) && Holding(d, p.cells) && Keeps(c, p, c', p')
    requires (c.r < d.l || d.r < c.l) && Own(c, p.cells) !! Own(d, p.cells)
    ensures Holding(c', p'.cells) && Holding(d, p'.cells) && Own(d, p'.cells) == Own(d, p.cells)
    ensures PIndices(c', |p'.cells|) && Abs(d, p'.text) == Abs(d, p.text)
  {
    OthersKeep(d, p, p');
  }

  /** Every step of every process keeps the buffers together and shows a step of the fork/join
      machine. */
  lemma {:induction false} StepSimulates(key: Title, t: PTask, p: Shared, t': PTask, p': Shared)
    requires PIndices(t, |p.cells|) && Holding(t, p.cells) && Apart(t.l, t.r, Own(t, p.cells), p.cells)
    requires PStep(key, t, p, t', p')
    ensures Keeps(t, p, t', p') && Shows(key, t, p, t', p')
    decreases t, 1
  {
    if !t.PFork? {
      FlatSimulates(key, t, p, t', p');
    } else if POver(t.left) && POver(t.right) {
      BothOverHold(t.l, t.r, t.left, t.right, p.cells);
      BothOverShow(key, t, p, t');
    } else if t'.right == t.right && PStep(key, t.left, p, t'.left, p') {
      LeftSimulates(key, t, p, t', p');
    } else {
      RightSimulates(key, t, p, t', p');
    }
  }

  lemma {:induction false} FlatSimulates(key: Title, t: PTask, p: Shared, t': PTask, p': Shared)
    requires !t.PFork? && Holding(t, p.cells) && Apart(t.l, t.r, Own(t, p.cells), p.cells)
    requires PStep(key, t, p, t', p')
    ensures Keeps(t, p, t', p') && Shows(key, t, p, t', p')
  {
    if t.PCall? {
      CallKeeps(key, t, p, t', p');
      CallShows(key, t, p, t');
    } else if t.PTake? {
      TakeStepKeeps(key, t, p, t', p');
      TakeShows(key, t, p, t');
    } else if t.PPut? {
      PutStepKeeps(key, t, p, t', p');
      PutShows(key, t, p, t', p');
    } else {
      WriteStepKeeps(key, t, p, t', p');
      WriteShows(key, t, p, t', p');
    }
  }

  lemma {:induction false} LeftSimulates(key: Title, t: PTask, p: Shared, t': PTask, p': Shared)
    requires t.PFork? && Holding(t, p.cells) && Apart(t.l, t.r, Own(t, p.cells), p.cells)
    requires !(POver(t.left) && POver(t.right)) && t'.PFork? && t'.l == t.l && t'.r == t.r
    requires t'.right == t.right && PStep(key, t.left, p, t'.left, p')
    ensures Keeps(t, p, t', p') && Shows(key, t, p, t', p')
    decreases t, 0
  {
    var PFork(l, r, left, right) := t;
    ChildApart(l, r, Own(t, p.cells), left, right, p.cells);
    StepSimulates(key, left, p, t'.left, p');
    SiblingKeeps(left, right, p, t'.left, p');
    assert t' == PFork(l, r, t'.left, right);
    LeftShows(key, l, r, left, right, p, t'.left, p');
  }

  lemma {:induction false} LeftShows(key: Title, l: int, r: int, left: PTask, right: PTask, p: Shared,
                                     left': PTask, p': Shared)
    requires PIndices(PFork(l, r, left, right), |p.cells|) && !(POver(left) && POver(right))
    requires Shows(key, left, p, left', p') && Abs(right, p'.text) == Abs(right, p.text)
    ensures Shows(key, PFork(l, r, left, right), p, PFork(l, r, left', right), p')
  {
    AbsIndices(left, p.text, |p.cells|);
    AbsIndices(right, p.text, |p.cells|);
  }

  lemma {:induction false} RightSimulates(key: Title, t: PTask, p: Shared, t': PTask, p': Shared)
    requires t.PFork? && Holding(t, p.cells) && Apart(t.l, t.r, Own(t, p.cells), p.cells)
    requires !(POver(t.left) && POver(t.right)) && t'.PFork? && t'.l == t.l && t'.r == t.r
    requires t'.left == t.left && PStep(key, t.right, p, t'.right, p')
    ensures Keeps(t, p, t', p') && Shows(key, t, p, t', p')
    decreases t, 0
  {
    var PFork(l, r, left, right) := t;
    ChildApart(l, r, Own(t, p.cells), right, left, p.cells);
    StepSimulates(key, right, p, t'.right, p');
    SiblingKeeps(right, left, p, t'.right, p');
    assert t' == PFork(l, r, left, t'.right);
    RightShows(key, l, r, left, right, p, t'.right, p');
  }

  lemma {:induction false} RightShows(key: Title, l: int, r: int, left: PTask, right: PTask, p: Shared,
                                      right': PTask, p': Shared)
    requires PIndices(PFork(l, r, left, right), |p.cells|) && !(POver(left) && POver(right))
    requires Shows(key, right, p, right', p') && Abs(left, p'.text) == Abs(left, p.text)
    ensures Shows(key, PFork(l, r, left, right), p, PFork(l, r, left, right'), p')
  {
    AbsIndices(left, p.text, |p.cells|);
    AbsIndices(right, p.text, |p.cells|);
  }

  // Whole runs

  /** Successive states of the forked processes of one request, from the start on: every slot
      has a shared buffer of its own. */
  ghost predicate PRunFrom(key: Title, start: Shared, ts: seq<PTask>, ps: seq<Shared>) {
    && |ts| == |ps| > 0
    && Distinct(start.cells, 0, |start.cells|)
    && ps[0] == start && ts[0] == PCall(0, |start.cells| - 1, 0)
    && forall i :: 0 <= i < |ts| - 1 ==>
        PIndices(ts[i], |ps[i].cells|) && PStep(key, ts[i], ps[i], ts[i + 1], ps[i + 1])
  }

  lemma {:induction false} PRunHolds(key: Title, start: Shared, ts: seq<PTask>, ps: seq<Shared>, i: nat)
    requires PRunFrom(key, start, ts, ps) && i < |ts|
    ensures |ps[i].cells| == |start.cells| && ts[i].l == 0 && ts[i].r == |start.cells| - 1
    ensures PIndices(ts[i], |ps[i].cells|) && Holding(ts[i], ps[i].cells)
    ensures Own(ts[i], ps[i].cells) == Slots(start.cells, 0, |start.cells|)
    ensures i > 0 ==> PIndices(ts[i - 1], |ps[i - 1].cells|) && Shows(key, ts[i - 1], ps[i - 1], ts[i], ps[i])
  {
    if i == 0 {
    } else {
      PRunHolds(key, start, ts, ps, i - 1);
      assert PStep(key, ts[i - 1], ps[i - 1], ts[i - 1 + 1], ps[i - 1 + 1]);
      StepSimulates(key, ts[i - 1], ps[i - 1], ts[i], ps[i]);
    }
  }

  /** The run of the fork/join machine that the first n states show. */
  lemma {:induction false} Views(key: Title, start: Shared, ts: seq<PTask>, ps: seq<Shared>, n: nat)
    returns (vs: seq<Task>, ms: seq<Mem>)
    requires PRunFrom(key, start, ts, ps) && 0 < n <= |ts|
    ensures RunOf(key, PROCESS, Shown(start.cells, start.text), vs, ms) && |vs| == n
    ensures vs[n - 1] == Abs(ts[n - 1], ps[n - 1].text) && ms[n - 1] == Shown(ps[n - 1].cells, ps[n - 1].text)
  {
    PRunHolds(key, start, ts, ps, n - 1);
    var v, m := Abs(ts[n - 1], ps[n - 1].text), Shown(ps[n - 1].cells, ps[n - 1].text);
    if n == 1 {
      vs, ms := [v], [m];
    } else {
      var vs', ms' := Views(key, start, ts, ps, n - 1);
      vs, ms := vs' + [v], ms' + [m];
      ExtendRun(key, PROCESS, vs', ms', v, m);
    }
  }

  lemma {:induction false} ExtendRun(key: Title, b: Build, ts: seq<Task>, ms: seq<Mem>, t: Task, m: Mem)
    requires Run(key, b, ts, ms) && Indices(ts[|ts| - 1], |ms[|ts| - 1]|)
    requires Step(key, b, ts[|ts| - 1], ms[|ts| - 1], t, m)
    ensures Run(key, b, ts + [t], ms + [m])
  {
    var ts', ms' := ts + [t], ms + [m];
    forall i {:trigger Steps(key, b, ts', ms', i)} | 0 <= i < |ts'| - 1 ensures Steps(key, b, ts', ms', i) {
      if i < |ts| - 1 { assert Steps(key, b, ts, ms, i); }
    }
  }

  /** When the forked processes of a request have all ended, in whatever interleaving, the slots
      still point to the original buffers, to each of them once, and show what the sequential
      recursion leaves: every score is paired with its own title. */
  lemma {:induction false} ProcessRunSorts(key: Title, start: Shared, ts: seq<PTask>, ps: seq<Shared>)
    requires PRunFrom(key, start, ts, ps) && POver(ts[|ts| - 1])
    ensures var p, s := ps[|ps| - 1], Shown(start.cells, start.text);
      && |p.cells| == |start.cells|
      && Distinct(p.cells, 0, |p.cells|) && Slots(p.cells, 0, |p.cells|) == Slots(start.cells, 0, |start.cells|)
      && Shown(p.cells, p.text) == Result(key, PROCESS, 0, s)
      && (ts[|ts| - 1].PDone? <==> Survives(PROCESS, 0, s))
  {
    var n := |ts|;
    var vs, ms := Views(key, start, ts, ps, n);
    PRunHolds(key, start, ts, ps, n - 1);
    EveryRunSorts(key, PROCESS, Shown(start.cells, start.text), vs, ms);
  }
}
