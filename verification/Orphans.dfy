/** The PROCESS build when `argmax` aborts some of its processes. The parent of an aborted process
    ignores its status and goes on at once, although processes that the dead one had forked may
    still be running: orphans, which share its range with it. Every interleaving is a run. */
module Orphans {
  import opened Titles
  import opened Ranking
  import opened Selection
  import opened SortTree
  import opened ForkJoin
  import opened ForkJoinRuns
  import opened SharedBuffers

  /** The process that the request was given to, with all that it has to wait for, and the orphans. */
  datatype Server = Server(own: PTask, orphans: seq<PTask>, shared: Shared)

  /** The process that entered this call has been aborted; its forked children may still run. */
  predicate Dead(t: PTask) { t.PGone? || (t.PFork? && Dead(t.right)) }

  /** Somewhere in `t` a `waitpid` returns for a dead process with children still running, and the
      merge starts; `o` is what is left running. */
  predicate Detaches(t: PTask, t': PTask, o: PTask) {
    match t
    case PFork(l, r, left, right) =>
      || (left.PFork? && Dead(left) && right.PDone? && t' == PTake(l, r, l, Mid(l, r) + 1, []) && o == left)
      || (t'.PFork? && t' == PFork(l, r, t'.left, right) && Detaches(left, t'.left, o))
      || (t'.PFork? && t' == PFork(l, r, left, t'.right) && Detaches(right, t'.right, o))
    case _ => false
  }

  /** The task that makes step i: an orphan, or the server's own for i == -1. */
  function Nth(s: Server, i: int): PTask
    requires -1 <= i < |s.orphans|
  {
    if i < 0 then s.own else s.orphans[i]
  }

  function With(s: Server, i: int, t: PTask): Server
    requires -1 <= i < |s.orphans|
  {
    if i < 0 then s.(own := t) else s.(orphans := s.orphans[i := t])
  }

  predicate Moves(key: Title, s: Server, i: int, t': PTask, p': Shared)
    requires -1 <= i < |s.orphans|
  {
    PIndices(Nth(s, i), |s.shared.cells|) && PStep(key, Nth(s, i), s.shared, t', p')
  }

  predicate StepBy(key: Title, s: Server, i: int, t': PTask, o: PTask, s': Server)
    requires -1 <= i < |s.orphans|
  {
    || (Moves(key, s, i, t', s'.shared) && s' == With(s, i, t').(shared := s'.shared))
    || (Detaches(Nth(s, i), t', o) && s' == With(s, i, t').(orphans := With(s, i, t').orphans + [o]))
  }

  ghost predicate ServerStep(key: Title, s: Server, s': Server) {
    exists i, t', o :: -1 <= i < |s.orphans| && StepBy(key, s, i, t', o, s')
  }

  /** Successive states of the server from the start of a request: every slot has a shared buffer of
      its own. */
  ghost predicate ServerRun(key: Title, start: Shared, ss: seq<Server>) {
    && |ss| > 0 && Distinct(start.cells, 0, |start.cells|)
    && ss[0] == Server(PCall(0, |start.cells| - 1, 0), [], start)
    && forall i {:trigger ss[i]} :: 0 < i < |ss| ==> ServerStep(key, ss[i - 1], ss[i])
  }

  // Every run ends

  function PRank(t: PTask): int {
    match t
    case PCall(l, r, level) => Cost(PROCESS, l, r, level)
    case PFork(l, r, left, right) => PRank(left) + PRank(right) + 2 * (r - l + 1) + 3
    case PTake(l, r, i, j, _) => (Mid(l, r) + 1 - i) + (r + 1 - j) + (r - l + 1) + 2
    case PPut(l, r, k, _) => (r - l + 1) - k + 1
    case PWrite(l, r, k, _) => (r - l + 1) - k + 1
    case PDone(_, _) => 0
    case PGone(_, _) => 0
  }

  lemma {:induction false} PRankNonNegative(t: PTask, n: nat)
    requires PIndices(t, n)
    ensures PRank(t) >= 0
    decreases t
  {
    if t.PFork? {
      PRankNonNegative(t.left, n);
      PRankNonNegative(t.right, n);
    }
  }

  /** What a step does to a task's range, its indices and its rank. */
  ghost predicate Lowers(t: PTask, t': PTask, n: nat) {
    PIndices(t', n) && t'.l == t.l && t'.r == t.r && PRank(t') < PRank(t)
  }

  /** A step keeps a task's indices and brings it closer to its end. */
  lemma {:induction false} PStepRank(key: Title, t: PTask, p: Shared, t': PTask, p': Shared)
    requires PIndices(t, |p.cells|) && PStep(key, t, p, t', p')
    ensures |p'.cells| == |p.cells| && Lowers(t, t', |p.cells|)
    decreases t
  {
    if t.PCall? {
      CallRank(key, t.l, t.r, t.level, p);
    } else if !t.PFork? {
      FlatPRank(key, t, p, t', p');
    } else if !(POver(t.left) && POver(t.right)) {
      if t'.right == t.right && PStep(key, t.left, p, t'.left, p') {
        PStepRank(key, t.left, p, t'.left, p');
      } else {
        PStepRank(key, t.right, p, t'.right, p');
      }
      ForkLowers(t.l, t.r, t.left, t.right, t'.left, t'.right, |p.cells|);
    }
  }

  lemma {:induction false} CallRank(key: Title, l: int, r: int, level: nat, p: Shared)
    requires PIndices(PCall(l, r, level), |p.cells|)
    ensures l > r ==> Lowers(PCall(l, r, level), PDone(l, r), |p.cells|)
    ensures l <= r ==> Lowers(PCall(l, r, level), PEnter(key, l, r, level, p), |p.cells|)
  {
    if l <= r && level == MAX_LEVEL {
      var s := Shown(p.cells, p.text)[l..r + 1];
      RankedSorts(s);
      assert |DecorateAll(key, Ranked(s))| == r - l + 1;
    } else if l <= r {
      HalvesRank(l, r, level, |p.cells|);
    }
  }

  lemma {:induction false} HalvesRank(l: int, r: int, level: nat, n: nat)
    requires 0 <= l <= r < n && level < MAX_LEVEL
    ensures var t' := PFork(l, r, PCall(l, Mid(l, r), level + 1), PCall(Mid(l, r) + 1, r, level + 1));
      PIndices(t', n) && PRank(t') < Cost(PROCESS, l, r, level)
  {
  }

  lemma {:induction false} FlatPRank(key: Title, t: PTask, p: Shared, t': PTask, p': Shared)
    requires PIndices(t, |p.cells|) && PStep(key, t, p, t', p') && !t.PFork? && !t.PCall?
    ensures |p'.cells| == |p.cells| && Lowers(t, t', |p.cells|)
  {
  }

  lemma {:induction false} ForkLowers(l: int, r: int, left: PTask, right: PTask, left': PTask, right': PTask, n: nat)
    requires PIndices(PFork(l, r, left, right), n)
    requires (Lowers(left, left', n) && right' == right) || (left' == left && Lowers(right, right', n))
    ensures Lowers(PFork(l, r, left, right), PFork(l, r, left', right'), n)
  {
  }

  lemma {:induction false} DetachRank(t: PTask, t': PTask, o: PTask, n: nat)
    requires PIndices(t, n) && Detaches(t, t', o)
    ensures PIndices(t', n) && PIndices(o, n) && t'.l == t.l && t'.r == t.r
    ensures PRank(t') + PRank(o) < PRank(t)
    decreases t
  {
    if t'.PFork? {
      if t' == PFork(t.l, t.r, t'.left, t.right) && Detaches(t.left, t'.left, o) {
        DetachRank(t.left, t'.left, o, n);
      } else {
        DetachRank(t.right, t'.right, o, n);
      }
    }
  }

  /** An unfinished task always has a step of its own, whatever has been written where. */
  lemma {:induction false} PCanStep(key: Title, t: PTask, p: Shared) returns (t': PTask, p': Shared)
    requires PIndices(t, |p.cells|) && !POver(t)
    ensures PStep(key, t, p, t', p')
    decreases t
  {
    p' := p;
    match t
    case PCall(l, r, level) => t' := if l > r then PDone(l, r) else PEnter(key, l, r, level, p);
    case PFork(l, r, left, right) =>
      if !POver(left) {
        var left';
        left', p' := PCanStep(key, left, p);
        t' := PFork(l, r, left', right);
      } else if !POver(right) {
        var right';
        right', p' := PCanStep(key, right, p);
        t' := PFork(l, r, left, right');
      } else {
        t' := if right.PDone? then PTake(l, r, l, Mid(l, r) + 1, []) else PGone(l, r);
      }
    case PTake(l, r, i, j, out) => t' := PTakeTurn(l, r, i, j, out, p);
    case PPut(l, r, k, out) =>
      if k < |out| { t', p' := PPut(l, r, k + 1, out), Shared(p.cells[l + k := out[k]], p.text); } else { t' := PDone(l, r); }
    case PWrite(l, r, k, sorted) =>
      if k < |sorted| { t', p' := PWrite(l, r, k + 1, sorted), WriteThrough(p, l + k, sorted[k]); } else { t' := PDone(l, r); }
  }

  function RankSum(ts: seq<PTask>): int {
    if ts == [] then 0 else PRank(ts[0]) + RankSum(ts[1..])
  }

  lemma {:induction false} RankSumUpdate(ts: seq<PTask>, i: nat, t: PTask)
    requires i < |ts|
    ensures RankSum(ts[i := t]) == RankSum(ts) - PRank(ts[i]) + PRank(t)
  {
    var us := ts[i := t];
    if i > 0 {
      assert us[1..] == ts[1..][i - 1 := t];
      RankSumUpdate(ts[1..], i - 1, t);
    } else {
      assert us[1..] == ts[1..];
    }
  }

  lemma {:induction false} RankSumAppend(ts: seq<PTask>, t: PTask)
    ensures RankSum(ts + [t]) == RankSum(ts) + PRank(t)
  {
    if ts != [] {
      assert (ts + [t])[1..] == ts[1..] + [t];
      RankSumAppend(ts[1..], t);
    } else {
      assert [t][1..] == [];
    }
  }

  lemma {:induction false} RankSumNonNegative(ts: seq<PTask>, n: nat)
    requires forall i :: 0 <= i < |ts| ==> PIndices(ts[i], n)
    ensures RankSum(ts) >= 0
  {
    if ts != [] {
      PRankNonNegative(ts[0], n);
      RankSumNonNegative(ts[1..], n);
    }
  }

  ghost predicate AllIndexed(s: Server, n: nat) {
    && |s.shared.cells| == n && PIndices(s.own, n)
    && forall i :: 0 <= i < |s.orphans| ==> PIndices(s.orphans[i], n)
  }

  function ServerRank(s: Server): int { PRank(s.own) + RankSum(s.orphans) }

  lemma {:induction false} ServerStepRank(key: Title, s: Server, s': Server, n: nat)
    requires AllIndexed(s, n) && ServerStep(key, s, s')
    ensures AllIndexed(s', n) && s'.own.l == s.own.l && s'.own.r == s.own.r
    ensures ServerRank(s') < ServerRank(s)
  {
    var i, t', o :| -1 <= i < |s.orphans| && StepBy(key, s, i, t', o, s');
    if Moves(key, s, i, t', s'.shared) && s' == With(s, i, t').(shared := s'.shared) {
      MoveRank(key, s, i, t', s', n);
    } else {
      ForkedRank(s, i, t', o, s', n);
    }
  }

  lemma {:induction false} MoveRank(key: Title, s: Server, i: int, t': PTask, s': Server, n: nat)
    requires AllIndexed(s, n) && -1 <= i < |s.orphans|
    requires Moves(key, s, i, t', s'.shared) && s' == With(s, i, t').(shared := s'.shared)
    ensures AllIndexed(s', n) && s'.own.l == s.own.l && s'.own.r == s.own.r
    ensures ServerRank(s') < ServerRank(s)
  {
    PStepRank(key, Nth(s, i), s.shared, t', s'.shared);
    WithRank(s, i, t');
  }

  lemma {:induction false} ForkedRank(s: Server, i: int, t': PTask, o: PTask, s': Server, n: nat)
    requires AllIndexed(s, n) && -1 <= i < |s.orphans|
    requires Detaches(Nth(s, i), t', o) && s' == With(s, i, t').(orphans := With(s, i, t').orphans + [o])
    ensures AllIndexed(s', n) && s'.own.l == s.own.l && s'.own.r == s.own.r
    ensures ServerRank(s') < ServerRank(s)
  {
    DetachRank(Nth(s, i), t', o, n);
    WithRank(s, i, t');
    RankSumAppend(With(s, i, t').orphans, o);
  }

  lemma {:induction false} WithRank(s: Server, i: int, t: PTask)
    requires -1 <= i < |s.orphans|
    ensures ServerRank(With(s, i, t)) == ServerRank(s) - PRank(Nth(s, i)) + PRank(t)
  {
    if i >= 0 { RankSumUpdate(s.orphans, i, t); }
  }

  // What other processes cannot touch

  predicate OutIn(out: seq<Cell>, own: set<int>) {
    forall x :: 0 <= x < |out| ==> out[x].slot in own
  }

  /** The task works on slots below `edge` only, and holds pointers to buffers of `own` only. */
  predicate Below(t: PTask, edge: int, own: set<int>) {
    && t.r < edge
    && match t
       case PFork(_, _, left, right) => Below(left, edge, own) && Below(right, edge, own)
       case PTake(_, _, _, _, out) => OutIn(out, own)
       case PPut(_, _, _, out) => OutIn(out, own)
       case _ => true
  }

  /** Slots below `edge` point to buffers of `own`, the others are as they were at the start, and so
      are all other buffers. */
  ghost predicate Clean(start: Shared, p: Shared, edge: int, own: set<int>) {
    && |p.cells| == |start.cells|
    && (forall x :: 0 <= x < |p.cells| && x < edge ==> p.cells[x].slot in own)
    && (forall x :: 0 <= x < |p.cells| && edge <= x ==> p.cells[x] == start.cells[x])
    && (forall b :: b !in own ==> (b in p.text <==> b in start.text) && (b in p.text ==> p.text[b] == start.text[b]))
  }

  lemma {:induction false} BelowSteps(key: Title, t: PTask, p: Shared, t': PTask, p': Shared, start: Shared,
                                      edge: int, own: set<int>)
    requires PIndices(t, |p.cells|) && PStep(key, t, p, t', p') && Below(t, edge, own) && Clean(start, p, edge, own)
    ensures Below(t', edge, own) && Clean(start, p', edge, own)
    decreases t
  {
    if t.PFork? {
      if !(POver(t.left) && POver(t.right)) {
        if t'.right == t.right && PStep(key, t.left, p, t'.left, p') {
          BelowSteps(key, t.left, p, t'.left, p', start, edge, own);
        } else {
          BelowSteps(key, t.right, p, t'.right, p', start, edge, own);
        }
      }
    }
  }

  lemma {:induction false} BelowDetaches(t: PTask, t': PTask, o: PTask, n: nat, edge: int, own: set<int>)
    requires PIndices(t, n) && Detaches(t, t', o) && Below(t, edge, own)
    ensures Below(t', edge, own) && Below(o, edge, own)
    decreases t
  {
    if t'.PFork? {
      if t' == PFork(t.l, t.r, t'.left, t.right) && Detaches(t.left, t'.left, o) {
        BelowDetaches(t.left, t'.left, o, n, edge, own);
      } else {
        BelowDetaches(t.right, t'.right, o, n, edge, own);
      }
    }
  }

  lemma {:induction false} BelowMore(t: PTask, edge: int, own: set<int>, edge': int, own': set<int>)
    requires Below(t, edge, own) && edge <= edge' && own <= own'
    ensures Below(t, edge', own')
    decreases t
  {
    if t.PFork? {
      BelowMore(t.left, edge, own, edge', own');
      BelowMore(t.right, edge, own, edge', own');
    }
  }

  // The server's own path to its leaf

  /** Where the range of the server's own next call begins; -1 once it has gone past its leaf. */
  function Edge(t: PTask): int {
    match t
    case PCall(l, _, _) => l
    case PFork(_, _, _, right) => Edge(right)
    case _ => -1
  }

  /** The children forked on the path work below the edge. */
  predicate Beside(t: PTask, edge: int, own: set<int>) {
    t.PFork? ==> Below(t.left, edge, own) && Beside(t.right, edge, own)
  }

  /** The path leads to the leaf `last`, and ends as the scores there decide. */
  ghost predicate OnPath(t: PTask, level: nat, s0: seq<Entry>, last: seq<Entry>) {
    && 0 <= t.l <= t.r + 1 <= |s0| && level <= MAX_LEVEL
    && match t
       case PCall(l, r, lv) => lv == level && LastLeaf(level, s0[l..r + 1]) == last
       case PFork(l, r, _, right) =>
         && l <= r && level < MAX_LEVEL && right.l == Mid(l, r) + 1 && right.r == r
         && OnPath(right, level + 1, s0, last)
       case PGone(_, _) => Negatives(last) >= 2
       case _ => Negatives(last) <= 1
  }

  lemma {:induction false} PathDecided(t: PTask, level: nat, s0: seq<Entry>, last: seq<Entry>)
    requires OnPath(t, level, s0, last)
    ensures t.PDone? ==> Negatives(last) <= 1
    ensures Dead(t) ==> Negatives(last) >= 2
    decreases t
  {
    if t.PFork? { PathDecided(t.right, level + 1, s0, last); }
  }

  /** A dead process has gone past its leaf. */
  lemma {:induction false} DeadIsPast(t: PTask)
    ensures Dead(t) || t.PDone? ==> Edge(t) == -1
    decreases t
  {
    if t.PFork? { DeadIsPast(t.right); }
  }

  /** Until the server's own process has gone past its leaf, no other process has touched the slots
      and buffers that it will sort there. */
  ghost predicate Alongside(start: Shared, t: PTask, p: Shared) {
    var edge := Edge(t);
    0 <= edge ==>
      && edge <= |start.cells|
      && var own := Slots(start.cells, 0, edge); Beside(t, edge, own) && Clean(start, p, edge, own)
  }

  /** The slots from the edge on show what they showed at the start. */
  lemma {:induction false} CleanShows(start: Shared, p: Shared, l: int, r: int)
    requires 0 <= l <= r + 1 <= |start.cells| && Clean(start, p, l, Slots(start.cells, 0, l))
    requires Distinct(start.cells, 0, |start.cells|)
    ensures Shown(p.cells, p.text)[l..r + 1] == Shown(start.cells, start.text)[l..r + 1]
  {
    forall x | l <= x <= r ensures Show(p.cells[x], p.text) == Show(start.cells[x], start.text) {
      assert start.cells[x].slot !in Slots(start.cells, 0, l);
    }
  }

  /** The call at the edge is entered: the edge moves to its second half, or is passed. */
  lemma {:induction false} CallOnPath(key: Title, t: PTask, level: nat, p: Shared, t': PTask, start: Shared, last: seq<Entry>)
    requires t.PCall? && PIndices(t, |p.cells|) && PStep(key, t, p, t', p)
    requires Distinct(start.cells, 0, |start.cells|) && Alongside(start, t, p)
    requires OnPath(t, level, Shown(start.cells, start.text), last)
    ensures OnPath(t', level, Shown(start.cells, start.text), last) && Alongside(start, t', p)
  {
    if t.l <= t.r {
      if level < MAX_LEVEL {
        HalvesOnPath(t.l, t.r, level, Shown(start.cells, start.text), last);
        HalvesAlongside(t.l, t.r, level, p, start);
      } else {
        CleanShows(start, p, t.l, t.r);
      }
    } else {
      LastLeafEmpty(level);
    }
  }

  lemma {:induction false} HalvesOnPath(l: int, r: int, level: nat, s0: seq<Entry>, last: seq<Entry>)
    requires l <= r && level < MAX_LEVEL && OnPath(PCall(l, r, level), level, s0, last)
    ensures OnPath(PFork(l, r, PCall(l, Mid(l, r), level + 1), PCall(Mid(l, r) + 1, r, level + 1)), level, s0, last)
  {
    var s := s0[l..r + 1];
    assert s[Half(|s|)..] == s0[Mid(l, r) + 1..r + 1];
  }

  lemma {:induction false} HalvesAlongside(l: int, r: int, level: nat, p: Shared, start: Shared)
    requires 0 <= l <= r < |start.cells| && Alongside(start, PCall(l, r, level), p)
    ensures Alongside(start, PFork(l, r, PCall(l, Mid(l, r), level + 1), PCall(Mid(l, r) + 1, r, level + 1)), p)
  {
    EdgeMoves(start, p, l, Mid(l, r) + 1);
  }

  lemma {:induction false} EdgeMoves(start: Shared, p: Shared, edge: int, edge': int)
    requires 0 <= edge <= edge' <= |start.cells| && Clean(start, p, edge, Slots(start.cells, 0, edge))
    ensures Clean(start, p, edge', Slots(start.cells, 0, edge'))
    ensures Slots(start.cells, 0, edge) <= Slots(start.cells, 0, edge')
  {
    SlotsSplit(start.cells, 0, edge, edge');
    forall x | edge <= x < edge' ensures p.cells[x].slot in Slots(start.cells, 0, edge') {
      assert p.cells[x] == start.cells[x];
    }
  }

  /** The edge only moves up, or the leaf is passed. */
  predicate Upward(t: PTask, t': PTask) { 0 <= Edge(t') ==> 0 <= Edge(t) <= Edge(t') }

  /** A step of the server's own tree. */
  lemma {:induction false} PathSteps(key: Title, t: PTask, level: nat, p: Shared, t': PTask, p': Shared,
                                     start: Shared, last: seq<Entry>)
    requires PIndices(t, |p.cells|) && PStep(key, t, p, t', p')
    requires Distinct(start.cells, 0, |start.cells|) && Alongside(start, t, p)
    requires OnPath(t, level, Shown(start.cells, start.text), last)
    ensures OnPath(t', level, Shown(start.cells, start.text), last) && Alongside(start, t', p') && Upward(t, t')
    decreases t, 1
  {
    if t.PCall? {
      CallOnPath(key, t, level, p, t', start, last);
    } else if t.PFork? && !(POver(t.left) && POver(t.right)) {
      ForkOnPath(key, t, level, p, t', p', start, last);
    }
  }

  lemma {:induction false} ForkOnPath(key: Title, t: PTask, level: nat, p: Shared, t': PTask, p': Shared,
                                      start: Shared, last: seq<Entry>)
    requires t.PFork? && !(POver(t.left) && POver(t.right))
    requires PIndices(t, |p.cells|) && PStep(key, t, p, t', p')
    requires Distinct(start.cells, 0, |start.cells|) && Alongside(start, t, p)
    requires OnPath(t, level, Shown(start.cells, start.text), last)
    ensures OnPath(t', level, Shown(start.cells, start.text), last) && Alongside(start, t', p') && Upward(t, t')
    decreases t, 0
  {
    var edge := Edge(t);
    if t'.right == t.right && PStep(key, t.left, p, t'.left, p') {
      if 0 <= edge { BelowSteps(key, t.left, p, t'.left, p', start, edge, Slots(start.cells, 0, edge)); }
    } else {
      PathSteps(key, t.right, level + 1, p, t'.right, p', start, last);
      PStepRank(key, t.right, p, t'.right, p');
      if 0 <= Edge(t') { LeftStaysBelow(start, t.left, edge, Edge(t')); }
    }
  }

  lemma {:induction false} LeftStaysBelow(start: Shared, t: PTask, edge: int, edge': int)
    requires 0 <= edge <= edge' <= |start.cells| && Below(t, edge, Slots(start.cells, 0, edge))
    ensures Below(t, edge', Slots(start.cells, 0, edge'))
  {
    SlotsSplit(start.cells, 0, edge, edge');
    BelowMore(t, edge, Slots(start.cells, 0, edge), edge', Slots(start.cells, 0, edge'));
  }

  /** A merge in the server's own tree starts beside orphans. */
  lemma {:induction false} PathDetaches(t: PTask, level: nat, p: Shared, t': PTask, o: PTask, start: Shared,
                                        s0: seq<Entry>, last: seq<Entry>)
    requires PIndices(t, |p.cells|) && Detaches(t, t', o) && Alongside(start, t, p) && OnPath(t, level, s0, last)
    ensures OnPath(t', level, s0, last) && Alongside(start, t', p) && Edge(t') == Edge(t)
    ensures 0 <= Edge(t) ==> Below(o, Edge(t), Slots(start.cells, 0, Edge(t)))
    decreases t
  {
    DetachRank(t, t', o, |p.cells|);
    if t'.PFork? {
      var edge := Edge(t);
      if t' == PFork(t.l, t.r, t'.left, t.right) && Detaches(t.left, t'.left, o) {
        if 0 <= edge { BelowDetaches(t.left, t'.left, o, |p.cells|, edge, Slots(start.cells, 0, edge)); }
      } else {
        DetachRank(t.right, t'.right, o, |p.cells|);
        PathDetaches(t.right, level + 1, p, t'.right, o, start, s0, last);
      }
    }
  }

  // Every step of the server

  /** The invariant of every run, orphans or not. */
  ghost predicate Fated(start: Shared, s: Server, last: seq<Entry>) {
    && Distinct(start.cells, 0, |start.cells|) && AllIndexed(s, |start.cells|)
    && s.own.l == 0 && s.own.r == |start.cells| - 1
    && OnPath(s.own, 0, Shown(start.cells, start.text), last) && Alongside(start, s.own, s.shared)
    && forall i :: 0 <= i < |s.orphans| && 0 <= Edge(s.own) ==>
         Below(s.orphans[i], Edge(s.own), Slots(start.cells, 0, Edge(s.own)))
  }

  lemma {:induction false} OwnStepFated(key: Title, start: Shared, s: Server, t': PTask, s': Server, last: seq<Entry>)
    requires Fated(start, s, last) && Moves(key, s, -1, t', s'.shared) && s' == With(s, -1, t').(shared := s'.shared)
    requires AllIndexed(s', |start.cells|)
    ensures Fated(start, s', last)
  {
    PathSteps(key, s.own, 0, s.shared, t', s'.shared, start, last);
    PStepRank(key, s.own, s.shared, t', s'.shared);
    if 0 <= Edge(t') {
      forall i | 0 <= i < |s.orphans| ensures Below(s.orphans[i], Edge(t'), Slots(start.cells, 0, Edge(t'))) {
        LeftStaysBelow(start, s.orphans[i], Edge(s.own), Edge(t'));
      }
    }
  }

  lemma {:induction false} OrphanStepFated(key: Title, start: Shared, s: Server, i: int, t': PTask, s': Server, last: seq<Entry>)
    requires Fated(start, s, last) && 0 <= i < |s.orphans| && AllIndexed(s', |start.cells|)
    requires Moves(key, s, i, t', s'.shared) && s' == With(s, i, t').(shared := s'.shared)
    ensures Fated(start, s', last)
  {
    var edge := Edge(s.own);
    if 0 <= edge {
      BelowSteps(key, s.orphans[i], s.shared, t', s'.shared, start, edge, Slots(start.cells, 0, edge));
    }
  }

  lemma {:induction false} DetachFated(start: Shared, s: Server, i: int, t': PTask, o: PTask, s': Server, last: seq<Entry>)
    requires Fated(start, s, last) && -1 <= i < |s.orphans| && AllIndexed(s', |start.cells|)
    requires Detaches(Nth(s, i), t', o) && s' == With(s, i, t').(orphans := With(s, i, t').orphans + [o])
    ensures Fated(start, s', last)
  {
    var edge, n := Edge(s.own), |start.cells|;
    if i < 0 {
      PathDetaches(s.own, 0, s.shared, t', o, start, Shown(start.cells, start.text), last);
      DetachRank(s.own, t', o, n);
    } else if 0 <= edge {
      BelowDetaches(s.orphans[i], t', o, n, edge, Slots(start.cells, 0, edge));
    }
  }

  lemma {:induction false} ServerStepFated(key: Title, start: Shared, s: Server, s': Server, last: seq<Entry>)
    requires Fated(start, s, last) && ServerStep(key, s, s')
    ensures Fated(start, s', last) && ServerRank(s') < ServerRank(s)
  {
    ServerStepRank(key, s, s', |start.cells|);
    var i, t', o :| -1 <= i < |s.orphans| && StepBy(key, s, i, t', o, s');
    if Moves(key, s, i, t', s'.shared) && s' == With(s, i, t').(shared := s'.shared) {
      if i < 0 {
        OwnStepFated(key, start, s, t', s', last);
      } else {
        OrphanStepFated(key, start, s, i, t', s', last);
      }
    } else {
      DetachFated(start, s, i, t', o, s', last);
    }
  }

  lemma {:induction false} RunFated(key: Title, start: Shared, ss: seq<Server>, i: nat)
    requires ServerRun(key, start, ss) && i < |ss|
    ensures Fated(start, ss[i], LastLeaf(0, Shown(start.cells, start.text)))
  {
    var s0 := Shown(start.cells, start.text);
    if i == 0 {
      assert s0[0..|s0|] == s0;
    } else {
      RunFated(key, start, ss, i - 1);
      assert ServerStep(key, ss[i - 1], ss[i]);
      ServerStepFated(key, start, ss[i - 1], ss[i], LastLeaf(0, s0));
    }
  }

  lemma {:induction false} RunServerRank(key: Title, start: Shared, ss: seq<Server>, i: nat)
    requires ServerRun(key, start, ss) && i < |ss|
    ensures AllIndexed(ss[i], |start.cells|) && ServerRank(ss[i]) + i <= ServerRank(ss[0])
  {
    if i > 0 {
      RunServerRank(key, start, ss, i - 1);
      assert ServerStep(key, ss[i - 1], ss[i]);
      ServerStepRank(key, ss[i - 1], ss[i], |start.cells|);
    }
  }

  /** In every state of every run, orphans or not: if the server's own process has come to its end,
      it was aborted if and only if two of the last sixteenth of the movies have negative scores; if
      it has not, some process can take a step. */
  lemma {:induction false} ServerEndsIff(key: Title, start: Shared, ss: seq<Server>)
    requires ServerRun(key, start, ss)
    ensures var s, s0 := ss[|ss| - 1], Shown(start.cells, start.text);
      && (s.own.PDone? ==> Negatives(s0[|s0| - |s0| / 16..]) <= 1)
      && (Dead(s.own) ==> Negatives(s0[|s0| - |s0| / 16..]) >= 2)
      && (!s.own.PDone? && !Dead(s.own) ==> exists s' :: ServerStep(key, s, s'))
  {
    var last := ServerFate(key, start, ss);
    ServerGoesOn(key, start, ss);
  }

  lemma {:induction false} ServerFate(key: Title, start: Shared, ss: seq<Server>) returns (last: seq<Entry>)
    requires ServerRun(key, start, ss)
    ensures var s, s0 := ss[|ss| - 1], Shown(start.cells, start.text);
      && last == s0[|s0| - |s0| / 16..]
      && (s.own.PDone? ==> Negatives(last) <= 1) && (Dead(s.own) ==> Negatives(last) >= 2)
  {
    var s0 := Shown(start.cells, start.text);
    last := LastLeaf(0, s0);
    LastSixteenth(s0);
    RunFated(key, start, ss, |ss| - 1);
    PathDecided(ss[|ss| - 1].own, 0, s0, last);
  }

  lemma {:induction false} ServerGoesOn(key: Title, start: Shared, ss: seq<Server>)
    requires ServerRun(key, start, ss)
    ensures var s := ss[|ss| - 1]; !s.own.PDone? && !Dead(s.own) ==> exists s' :: ServerStep(key, s, s')
  {
    var s := ss[|ss| - 1];
    RunFated(key, start, ss, |ss| - 1);
    if !s.own.PDone? && !Dead(s.own) {
      var t', p' := PCanStep(key, s.own, s.shared);
      assert StepBy(key, s, -1, t', t', With(s, -1, t').(shared := p'));
      assert ServerStep(key, s, With(s, -1, t').(shared := p'));
    }
  }

  /** No run is longer than this. */
  lemma {:induction false} ServerBound(key: Title, start: Shared, ss: seq<Server>)
    requires ServerRun(key, start, ss)
    ensures |ss| <= Cost(PROCESS, 0, |start.cells| - 1, 0) + 1
  {
    var s := ss[|ss| - 1];
    RunServerRank(key, start, ss, |ss| - 1);
    PRankNonNegative(s.own, |start.cells|);
    RankSumNonNegative(s.orphans, |start.cells|);
  }

  // Without aborts

  predicate HasGone(t: PTask) { t.PGone? || (t.PFork? && (HasGone(t.left) || HasGone(t.right))) }

  lemma {:induction false} DeadHasGone(t: PTask)
    requires Dead(t)
    ensures HasGone(t)
    decreases t
  {
    if t.PFork? { DeadHasGone(t.right); }
  }

  lemma {:induction false} DetachesHasGone(t: PTask, t': PTask, o: PTask)
    requires Detaches(t, t', o)
    ensures HasGone(t)
    decreases t
  {
    if t.left.PFork? && Dead(t.left) {
      DeadHasGone(t.left);
    } else if t'.PFork? && Detaches(t.left, t'.left, o) {
      DetachesHasGone(t.left, t'.left, o);
    } else {
      DetachesHasGone(t.right, t'.right, o);
    }
  }

  /** No process is aborted where no leaf holds two negative scores. */
  lemma {:induction false} FineNoneGone(key: Title, lv: nat, t: PTask, text: map<int, Title>, s: seq<Entry>, m: Mem)
    requires Owes(key, PROCESS, lv, Abs(t, text), s, m) && LeavesFine(PROCESS, lv, s)
    ensures !HasGone(t)
    decreases t
  {
    UnfoldOwes(key, PROCESS, lv, Abs(t, text), s, m);
    if t.PGone? {
      UnfoldEnded(key, PROCESS, lv, s, m[t.l..t.r + 1]);
      FineSurvives(PROCESS, lv, s);
    } else if t.PFork? {
      var lo, hi := Low(s, t.l, t.r), High(s, t.l, t.r);
      assert s == lo + hi;
      NodeFine(PROCESS, lv, lo, hi);
      FineNoneGone(key, lv + 1, t.left, text, lo, m);
      FineNoneGone(key, lv + 1, t.right, text, hi, m);
    }
  }

  lemma {:induction false} RunNoneGone(key: Title, start: Shared, ts: seq<PTask>, ps: seq<Shared>)
    requires PRunFrom(key, start, ts, ps) && LeavesFine(PROCESS, 0, Shown(start.cells, start.text))
    ensures !HasGone(ts[|ts| - 1])
  {
    var n, s0 := |ts|, Shown(start.cells, start.text);
    var vs, ms := Views(key, start, ts, ps, n);
    RunOwes(key, PROCESS, s0, vs, ms, n - 1);
    FineNoneGone(key, 0, ts[n - 1], ps[n - 1].text, s0, ms[n - 1]);
  }

  lemma {:induction false} ExtendPRun(key: Title, start: Shared, ts: seq<PTask>, ps: seq<Shared>, t: PTask, p: Shared)
    requires PRunFrom(key, start, ts, ps) && PIndices(ts[|ts| - 1], |ps[|ts| - 1].cells|)
    requires PStep(key, ts[|ts| - 1], ps[|ts| - 1], t, p)
    ensures PRunFrom(key, start, ts + [t], ps + [p])
  {
    var ts', ps' := ts + [t], ps + [p];
    forall i | 0 <= i < |ts'| - 1
      ensures PIndices(ts'[i], |ps'[i].cells|) && PStep(key, ts'[i], ps'[i], ts'[i + 1], ps'[i + 1])
    {
      if i < |ts| - 1 { assert PStep(key, ts[i], ps[i], ts[i + 1], ps[i + 1]); }
    }
  }

  /** Then no run of the server has orphans. */
  lemma {:induction false} FineRun(key: Title, start: Shared, ss: seq<Server>, n: nat)
    returns (ts: seq<PTask>, ps: seq<Shared>)
    requires ServerRun(key, start, ss) && n < |ss| && LeavesFine(PROCESS, 0, Shown(start.cells, start.text))
    ensures PRunFrom(key, start, ts, ps) && |ts| == n + 1 && ss[n] == Server(ts[n], [], ps[n])
    ensures !HasGone(ts[n])
  {
    if n == 0 {
      ts, ps := [ss[0].own], [start];
    } else {
      ts, ps := FineRun(key, start, ss, n - 1);
      var s, s' := ss[n - 1], ss[n];
      assert ServerStep(key, s, s');
      var i, t', o :| -1 <= i < |s.orphans| && StepBy(key, s, i, t', o, s');
      if Detaches(s.own, t', o) { DetachesHasGone(s.own, t', o); }
      ExtendPRun(key, start, ts, ps, t', s'.shared);
      ts, ps := ts + [t'], ps + [s'.shared];
    }
    RunNoneGone(key, start, ts, ps);
  }

  /** What the slots show in the end. */
  function Written(ss: seq<Server>): Mem
    requires |ss| > 0
  {
    Shown(ss[|ss| - 1].shared.cells, ss[|ss| - 1].shared.text)
  }

  /** Where no leaf holds two negative scores, no process is ever aborted or orphaned, and every
      finished run leaves the tree's order, one key each. */
  lemma {:induction false} FineServerSorts(key: Title, start: Shared, ss: seq<Server>)
    requires ServerRun(key, start, ss) && LeavesFine(PROCESS, 0, Shown(start.cells, start.text))
    ensures ss[|ss| - 1].orphans == [] && !HasGone(ss[|ss| - 1].own)
    ensures ss[|ss| - 1].own.PDone? ==>
        Written(ss) == DecorateAll(key, Tree(key, PROCESS, 0, Shown(start.cells, start.text)))
  {
    var ts, ps := FineRun(key, start, ss, |ss| - 1);
    if ss[|ss| - 1].own.PDone? {
      ProcessRunSorts(key, start, ts, ps);
      ResultIsTreeIff(key, PROCESS, 0, Shown(start.cells, start.text));
    }
  }

  // With aborts

  /** Every run of the forked processes in which orphans are given the time to end can be continued
      to its end. */
  lemma {:induction false} Continue(key: Title, start: Shared, ts: seq<PTask>, ps: seq<Shared>)
    returns (ts': seq<PTask>, ps': seq<Shared>)
    requires PRunFrom(key, start, ts, ps) && PIndices(ts[|ts| - 1], |ps[|ts| - 1].cells|)
    ensures PRunFrom(key, start, ts', ps') && ts <= ts' && ps <= ps' && POver(ts'[|ts'| - 1])
    decreases PRank(ts[|ts| - 1])
  {
    var t, p := ts[|ts| - 1], ps[|ts| - 1];
    PRankNonNegative(t, |p.cells|);
    if POver(t) {
      ts', ps' := ts, ps;
    } else {
      var t2, p2 := PCanStep(key, t, p);
      PStepRank(key, t, p, t2, p2);
      ExtendPRun(key, start, ts, ps, t2, p2);
      PRankNonNegative(t2, |p2.cells|);
      ts', ps' := Continue(key, start, ts + [t2], ps + [p2]);
    }
  }

  /** One such run, as a run of the server: it ends with the recursion's result. */
  lemma {:induction false} OrderlyRun(key: Title, start: Shared) returns (ss: seq<Server>)
    requires Distinct(start.cells, 0, |start.cells|)
    ensures ServerRun(key, start, ss) && Written(ss) == Result(key, PROCESS, 0, Shown(start.cells, start.text))
    ensures ss[|ss| - 1].own.PDone? <==> Survives(PROCESS, 0, Shown(start.cells, start.text))
  {
    var ts, ps := Continue(key, start, [PCall(0, |start.cells| - 1, 0)], [start]);
    ProcessRunSorts(key, start, ts, ps);
    ss := AsServer(key, start, ts, ps);
  }

  lemma {:induction false} AsServer(key: Title, start: Shared, ts: seq<PTask>, ps: seq<Shared>) returns (ss: seq<Server>)
    requires PRunFrom(key, start, ts, ps)
    ensures ServerRun(key, start, ss) && ss[|ss| - 1] == Server(ts[|ts| - 1], [], ps[|ts| - 1])
  {
    ss := seq(|ts|, i requires 0 <= i < |ts| => Server(ts[i], [], ps[i]));
    forall i {:trigger ss[i]} | 0 < i < |ss| ensures ServerStep(key, ss[i - 1], ss[i]) {
      OwnStep(key, start, ts, ps, i);
    }
  }

  lemma {:induction false} OwnStep(key: Title, start: Shared, ts: seq<PTask>, ps: seq<Shared>, i: nat)
    requires PRunFrom(key, start, ts, ps) && 0 < i < |ts|
    ensures ServerStep(key, Server(ts[i - 1], [], ps[i - 1]), Server(ts[i], [], ps[i]))
  {
    assert PStep(key, ts[i - 1], ps[i - 1], ts[i - 1 + 1], ps[i - 1 + 1]);
    assert StepBy(key, Server(ts[i - 1], [], ps[i - 1]), -1, ts[i], ts[i], Server(ts[i], [], ps[i]));
  }

  /** The run has come to the end of the server's own process. */
  ghost predicate Finishes(key: Title, start: Shared, ss: seq<Server>) {
    ServerRun(key, start, ss) && ss[|ss| - 1].own.PDone?
  }

  /** Every finished run leaves `v`. */
  ghost predicate AlwaysLeaves(key: Title, start: Shared, v: Mem) {
    forall ss :: Finishes(key, start, ss) ==> Written(ss) == v
  }

  /** Of the requests that do not abort the server, those whose every finished run leaves the tree's
      order of the entries `s0`, one key each, are exactly those without a leaf that holds two
      negative scores. */
  lemma {:induction false} ServerSortsIff(key: Title, start: Shared, s0: Mem, v: Mem)
    requires key != [] && Distinct(start.cells, 0, |start.cells|) && s0 == Shown(start.cells, start.text)
    requires Survives(PROCESS, 0, s0) && v == DecorateAll(key, Tree(key, PROCESS, 0, s0))
    ensures AlwaysLeaves(key, start, v) <==> LeavesFine(PROCESS, 0, s0)
  {
    if LeavesFine(PROCESS, 0, s0) {
      forall ss | Finishes(key, start, ss) ensures Written(ss) == v { FineServerSorts(key, start, ss); }
    } else {
      var ss := OrderlyRun(key, start);
      ResultIsTreeIff(key, PROCESS, 0, s0);
      assert Finishes(key, start, ss);
    }
  }
}
