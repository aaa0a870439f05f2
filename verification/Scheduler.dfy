/** The user-level thread scheduler: the ready and waiting queues as arrays updated in place,
    and what each call makes of them. A thread is named by the address of its tcb. */
module Scheduler {

  const THREAD_MAX: nat := 16

  /** Why the scheduler is entered. */
  datatype Reason = YIELD | READ | EXIT

  /** The two queues; `cur` is rq_current. */
  datatype Queues = Queues(ready: seq<int>, cur: int, waiting: seq<int>)

  /** The scheduler jumps to ready[cur], or every thread is gone, or it is still polling because
      every thread waits. */
  datatype Next = Dispatch(q: Queues) | AllGone(q: Queues) | Idling(q: Queues)

  // Specification

  function Readable(s: seq<int>, fds: set<int>): seq<int> {
    if s == [] then []
    else Readable(s[..|s| - 1], fds) + if s[|s| - 1] in fds then [s[|s| - 1]] else []
  }

  function Blocked(s: seq<int>, fds: set<int>): seq<int> {
    if s == [] then []
    else Blocked(s[..|s| - 1], fds) + if s[|s| - 1] in fds then [] else [s[|s| - 1]]
  }

  /** One pass over the waiting queue, `fds` being the threads whose FIFO has data. */
  function Wake(q: Queues, fds: set<int>): Queues {
    Queues(q.ready + Readable(q.waiting, fds), q.cur, Blocked(q.waiting, fds))
  }

  /** The last ready thread takes the place of the current one. */
  function SwapRemove(ready: seq<int>, cur: int): seq<int>
    requires 0 <= cur < |ready|
  {
    ready[cur := ready[|ready| - 1]][..|ready| - 1]
  }

  function Leave(q: Queues, reason: Reason): Queues
    requires 0 <= q.cur < |q.ready|
  {
    match reason
    case YIELD => q.(cur := q.cur + 1)
    case READ => Queues(SwapRemove(q.ready, q.cur), q.cur, q.waiting + [q.ready[q.cur]])
    case EXIT => Queues(SwapRemove(q.ready, q.cur), q.cur, q.waiting)
  }

  function Settle(q: Queues): Next {
    if q.ready == [] then (if q.waiting == [] then AllGone(q) else Idling(q))
    else Dispatch(if q.cur == |q.ready| then q.(cur := 0) else q)
  }

  /** The idle loop over as many passes as `polls` reports on. */
  function Idle(q: Queues, polls: seq<set<int>>): Next
    decreases |polls|
  {
    if q.ready == [] && q.waiting != [] && polls != [] then Idle(Wake(q, polls[0]), polls[1..]) else Settle(q)
  }

  /** A whole call: the first pass, then the idle loop if it comes to that. */
  function Whole(q: Queues, reason: Reason, fds: set<int>, polls: seq<set<int>>): Next
    requires 0 <= q.cur < |q.ready|
  {
    Idle(Leave(Wake(q, fds), reason), polls)
  }

  /** A pass over `s` finds `r` readable and leaves `b` blocked. */
  ghost predicate Passed(s: seq<int>, fds: set<int>, r: seq<int>, b: seq<int>) {
    r == Readable(s, fds) && b == Blocked(s, fds)
  }

  /** A pass takes the threads one by one. */
  lemma {:induction false} OneMore(s: seq<int>, i: nat, fds: set<int>, r: seq<int>, b: seq<int>)
    requires i < |s| && Passed(s[..i], fds, r, b)
    ensures if s[i] in fds then Passed(s[..i + 1], fds, r + [s[i]], b) else Passed(s[..i + 1], fds, r, b + [s[i]])
  {
    assert s[..i + 1][..i] == s[..i];
  }

  // The scheduler itself

  class ThreadQueues {
    const ready_queue: array<int>
    const waiting_queue: array<int>
    var rq_size: int
    var rq_current: int
    var wq_size: int

    ghost predicate Valid()
      reads this, ready_queue, waiting_queue
    {
      && ready_queue != waiting_queue && ready_queue.Length == waiting_queue.Length == THREAD_MAX
      && 0 <= rq_size && 0 <= wq_size && rq_size + wq_size <= THREAD_MAX
      && 0 <= rq_current <= rq_size
    }

    ghost function View(): Queues
      requires Valid()
      reads this, ready_queue, waiting_queue
    {
      Queues(ready_queue[..rq_size], rq_current, waiting_queue[..wq_size])
    }

    constructor ()
      ensures Valid() && View() == Queues([], 0, []) && fresh(ready_queue) && fresh(waiting_queue)
    {
      ready_queue, waiting_queue := new int[THREAD_MAX](_ => 0), new int[THREAD_MAX](_ => 0);
      rq_size, rq_current, wq_size := 0, 0, 0;
    }

    /** `thread_setup`: a new thread goes to the end of the ready queue. */
    method Create(t: int)
      requires Valid() && rq_size + wq_size < THREAD_MAX
      modifies this, ready_queue
      ensures Valid() && View() == old(View()).(ready := old(View()).ready + [t])
    {
      ready_queue[rq_size] := t;
      rq_size := rq_size + 1;
    }

    /** The compaction loop, which the scheduler has twice. */
    method WakeUp(fds: set<int>)
      requires Valid()
      modifies this, ready_queue, waiting_queue
      ensures Valid() && View() == Wake(old(View()), fds)
      ensures rq_current == old(rq_current) && rq_size >= old(rq_size)
    {
      ghost var q := View();
      var new_wq_size := 0;
      ghost var r, b := [], [];
      for i := 0 to wq_size
        invariant wq_size == old(wq_size) == |q.waiting| && rq_current == q.cur
        invariant |b| == new_wq_size <= i && |r| == i - new_wq_size && rq_size == |q.ready| + |r|
        invariant Passed(q.waiting[..i], fds, r, b)
        invariant ready_queue[..rq_size] == q.ready + r
        invariant waiting_queue[..new_wq_size] == b
        invariant forall k :: i <= k < wq_size ==> waiting_queue[k] == q.waiting[k]
      {
        OneMore(q.waiting, i, fds, r, b);
        if waiting_queue[i] in fds {
          ready_queue[rq_size] := waiting_queue[i];
          rq_size := rq_size + 1;
          r := r + [q.waiting[i]];
        } else {
          waiting_queue[new_wq_size] := waiting_queue[i];
          new_wq_size := new_wq_size + 1;
          b := b + [q.waiting[i]];
        }
      }
      assert q.waiting[..wq_size] == q.waiting;
      wq_size := new_wq_size;
    }

    /** `scheduler` on re-entry for a reason, with the answers of poll(). */
    method Reenter(reason: Reason, fds: set<int>, polls: seq<set<int>>) returns (ghost r: Next, returned: bool)
      requires Valid() && rq_current < rq_size
      modifies this, ready_queue, waiting_queue
      ensures Valid() && r == Whole(old(View()), reason, fds, polls) && r.q == View()
      ensures returned <==> r.AllGone?
      ensures r.Dispatch? ==> rq_current < rq_size
    {
      returned := false;
      WakeUp(fds);
      RemoveCurrent(reason);
      ghost var q := View();
      if rq_size == 0 && wq_size == 0 {
        r := AllGone(q);
        return r, true;
      } else if rq_size == 0 {
        IdleLoop(polls);
        if rq_size == 0 {
          r := Idling(View());
          return;
        }
      }
      if rq_current == rq_size { rq_current := 0; }
      r := Dispatch(View());
    }

    /** The idle loop, as long as poll() is reported on. */
    method IdleLoop(polls: seq<set<int>>)
      requires Valid() && rq_size == 0 && wq_size > 0
      modifies this, ready_queue, waiting_queue
      ensures Valid() && Settle(View()) == Idle(old(View()), polls) && rq_size + wq_size > 0
    {
      ghost var q := View();
      var n := 0;
      while rq_size == 0 && n < |polls|
        invariant Valid() && 0 <= n <= |polls|
        invariant Idle(View(), polls[n..]) == Idle(q, polls)
        invariant rq_size + wq_size > 0
      {
        assert polls[n..][0] == polls[n] && polls[n..][1..] == polls[n + 1..];
        assert View().ready == [] && View().waiting != [];
        WakeSome(View(), polls[n]);
        WakeUp(polls[n]);
        n := n + 1;
      }
    }

    /** The three branches on the reason. */
    method RemoveCurrent(reason: Reason)
      requires Valid() && rq_current < rq_size
      modifies this, ready_queue, waiting_queue
      ensures Valid() && View() == Leave(old(View()), reason)
    {
      ghost var q := View();
      if reason == YIELD {
        rq_current := rq_current + 1;
      } else if reason == READ {
        waiting_queue[wq_size] := ready_queue[rq_current];
        wq_size := wq_size + 1;
        ready_queue[rq_current] := ready_queue[rq_size - 1];
        rq_size := rq_size - 1;
        assert ready_queue[..rq_size] == SwapRemove(q.ready, q.cur);
      } else if reason == EXIT {
        ready_queue[rq_current] := ready_queue[rq_size - 1];
        rq_size := rq_size - 1;
        assert ready_queue[..rq_size] == SwapRemove(q.ready, q.cur);
      }
    }
  }

  // Conservation

  /** A pass that wakes nobody leaves everybody waiting. */
  lemma {:induction false} WakeSome(q: Queues, fds: set<int>)
    ensures |Readable(q.waiting, fds)| + |Blocked(q.waiting, fds)| == |q.waiting|
  {
    PassSplits(q.waiting, fds);
  }

  lemma {:induction false} PassSplits(s: seq<int>, fds: set<int>)
    ensures multiset(Readable(s, fds)) + multiset(Blocked(s, fds)) == multiset(s)
    ensures |Readable(s, fds)| + |Blocked(s, fds)| == |s|
  {
    if s != [] {
      var rest, t := s[..|s| - 1], s[|s| - 1];
      PassSplits(rest, fds);
      assert s == rest + [t];
      assert Readable(s, fds) == Readable(rest, fds) + if t in fds then [t] else [];
      assert Blocked(s, fds) == Blocked(rest, fds) + if t in fds then [] else [t];
    }
  }

  /** All threads that have not exited, as often as they are queued. */
  function Everyone(q: Queues): multiset<int> { multiset(q.ready) + multiset(q.waiting) }

  lemma {:induction false} WakeConserves(q: Queues, fds: set<int>)
    ensures Everyone(Wake(q, fds)) == Everyone(q)
  {
    PassSplits(q.waiting, fds);
  }

  lemma {:induction false} SwapRemoves(ready: seq<int>, cur: int)
    requires 0 <= cur < |ready|
    ensures multiset(SwapRemove(ready, cur)) == multiset(ready) - multiset{ready[cur]}
  {
    var n := |ready| - 1;
    if cur == n {
      assert ready == ready[..n] + [ready[n]];
      assert SwapRemove(ready, cur) == ready[..n];
    } else {
      var a, b := ready[..cur], ready[cur + 1..n];
      assert ready == a + ([ready[cur]] + (b + [ready[n]]));
      assert SwapRemove(ready, cur) == a + ([ready[n]] + b);
    }
  }

  lemma {:induction false} LeaveConserves(q: Queues, reason: Reason)
    requires 0 <= q.cur < |q.ready|
    ensures Everyone(Leave(q, reason)) ==
      if reason.EXIT? then Everyone(q) - multiset{q.ready[q.cur]} else Everyone(q)
  {
    SwapRemoves(q.ready, q.cur);
    assert q.ready[q.cur] in multiset(q.ready);
  }

  lemma {:induction false} IdleConserves(q: Queues, polls: seq<set<int>>)
    requires 0 <= q.cur <= |q.ready| && (q.ready == [] ==> q.cur == 0)
    ensures Everyone(Idle(q, polls).q) == Everyone(q)
    ensures var r := Idle(q, polls);
      && (r.Dispatch? ==> 0 <= r.q.cur < |r.q.ready|)
      && (r.AllGone? <==> q.ready == [] && q.waiting == [])
      && (r.AllGone? ==> r.q == q)
      && (r.Idling? ==> r.q.ready == [] && r.q.waiting != [] && r.q.cur == 0)
    decreases |polls|
  {
    if q.ready == [] && q.waiting != [] && polls != [] {
      WakeConserves(q, polls[0]);
      WakeSome(q, polls[0]);
      IdleConserves(Wake(q, polls[0]), polls[1..]);
    }
  }

  /** Every call of the scheduler, whatever poll() answers and however long it idles: the threads
      in the two queues are those that were there, each as often as it was, less the current
      thread if it exits; the dispatched index is in range; and the scheduler returns to `main`
      exactly when no thread is left. */
  lemma {:induction false} CallConserves(q: Queues, reason: Reason, fds: set<int>, polls: seq<set<int>>)
    requires 0 <= q.cur < |q.ready|
    ensures var r := Whole(q, reason, fds, polls);
      && Everyone(r.q) == (if reason.EXIT? then Everyone(q) - multiset{q.ready[q.cur]} else Everyone(q))
      && (r.Dispatch? ==> 0 <= r.q.cur < |r.q.ready|)
      && (r.AllGone? <==> reason.EXIT? && |Everyone(q)| == 1)
      && (r.AllGone? ==> r.q.ready == r.q.waiting == [])
      && (r.Idling? ==> r.q.ready == [] && r.q.waiting != [] && r.q.cur == 0)
  {
    WakeConserves(q, fds);
    var w := Wake(q, fds);
    assert w.ready[q.cur] == q.ready[q.cur];
    LeaveConserves(w, reason);
    IdleConserves(Leave(w, reason), polls);
    WakeSome(q, fds);
  }

  // What a call is, place by place

  /** r lists entries of s from left to right, those in fds or, with `those` false, others. */
  predicate Picks(s: seq<int>, fds: set<int>, those: bool, at: seq<nat>, r: seq<int>) {
    && |at| == |r|
    && (forall k :: 0 <= k < |at| ==> at[k] < |s| && r[k] == s[at[k]] && (r[k] in fds) == those)
    && (forall j, k :: 0 <= j < k < |at| ==> at[j] < at[k])
  }

  lemma {:induction false} PicksMore(s: seq<int>, fds: set<int>, those: bool, at: seq<nat>, r: seq<int>)
    returns (at': seq<nat>)
    requires s != [] && Picks(s[..|s| - 1], fds, those, at, r)
    ensures Picks(s, fds, those, at', if (s[|s| - 1] in fds) == those then r + [s[|s| - 1]] else r)
  {
    var n := |s| - 1;
    at' := if (s[n] in fds) == those then at + [n] else at;
    assert forall k :: 0 <= k < |at| ==> at[k] < n && s[..n][at[k]] == s[at[k]];
  }

  /** A pass keeps the order: it moves the readable threads, and keeps the others, from left to right,
      and every thread is among the ones or the others. */
  lemma {:induction false} PassKeepsOrder(s: seq<int>, fds: set<int>) returns (ri: seq<nat>, bi: seq<nat>)
    ensures Picks(s, fds, true, ri, Readable(s, fds))
    ensures Picks(s, fds, false, bi, Blocked(s, fds))
    ensures multiset(Readable(s, fds)) + multiset(Blocked(s, fds)) == multiset(s)
  {
    PassSplits(s, fds);
    if s == [] {
      ri, bi := [], [];
    } else {
      var rest := s[..|s| - 1];
      ri, bi := PassKeepsOrder(rest, fds);
      ri := PicksMore(s, fds, true, ri, Readable(rest, fds));
      bi := PicksMore(s, fds, false, bi, Blocked(rest, fds));
      assert Readable(s, fds) == if s[|s| - 1] in fds then Readable(rest, fds) + [s[|s| - 1]] else Readable(rest, fds);
      assert Blocked(s, fds) == if s[|s| - 1] in fds then Blocked(rest, fds) else Blocked(rest, fds) + [s[|s| - 1]];
    }
  }

  /** The last ready thread has taken slot cur, and the queue is one shorter. */
  predicate Removed(ready: seq<int>, cur: int, ready': seq<int>)
    requires 0 <= cur < |ready|
  {
    && |ready'| == |ready| - 1
    && forall k :: 0 <= k < |ready'| ==> ready'[k] == if k == cur then ready[|ready| - 1] else ready[k]
  }

  /** A call after its first pass, which leaves `ready` and `waiting`: a yielding thread hands over to
      the next slot, or to the first from the last; a reading or exiting one gives its slot to the
      last ready thread, which goes on, and the first slot follows the last one again. */
  lemma {:induction false} CallIs(q: Queues, reason: Reason, fds: set<int>, polls: seq<set<int>>)
    requires 0 <= q.cur < |q.ready|
    ensures var ready, waiting := q.ready + Readable(q.waiting, fds), Blocked(q.waiting, fds);
      var cur, r := q.cur, Whole(q, reason, fds, polls);
      if reason.YIELD? then
        r == Dispatch(Queues(ready, if cur + 1 < |ready| then cur + 1 else 0, waiting))
      else
        var waiting' := if reason.READ? then waiting + [ready[cur]] else waiting;
        if |ready| > 1 then
          && r.Dispatch? && Removed(ready, cur, r.q.ready) && r.q.waiting == waiting'
          && r.q.cur == if cur + 1 < |ready| then cur else 0
        else if waiting' == [] then r == AllGone(Queues([], 0, []))
        else if polls == [] then r == Idling(Queues([], 0, waiting'))
        else if Readable(waiting', polls[0]) != [] then
          r == Dispatch(Queues(Readable(waiting', polls[0]), 0, Blocked(waiting', polls[0])))
        else true
  {
    var w := Wake(q, fds);
    var l := Leave(w, reason);
    assert Whole(q, reason, fds, polls) == Idle(l, polls);
    if !reason.YIELD? && l.ready == [] && l.waiting != [] && polls != [] {
      var l' := Wake(l, polls[0]);
      assert l'.ready == Readable(l.waiting, polls[0]);
      assert Idle(l, polls) == Idle(l', polls[1..]);
    }
  }

  // Runs of the queues

  /** One call: why, and what poll() answers on each pass. */
  datatype Entry = Entry(reason: Reason, fds: set<int>, polls: seq<set<int>>)

  /** Calls, each of which ends in a dispatch. */
  ghost predicate Calls(qs: seq<Queues>, es: seq<Entry>) {
    && |qs| == |es| + 1
    && forall n {:trigger Leads(qs, es, n)} :: 0 <= n < |es| ==> Leads(qs, es, n)
  }

  predicate Leads(qs: seq<Queues>, es: seq<Entry>, n: int)
    requires 0 <= n < |es| && n + 1 < |qs|
  {
    0 <= qs[n].cur < |qs[n].ready| && Whole(qs[n], es[n].reason, es[n].fds, es[n].polls) == Dispatch(qs[n + 1])
  }

  predicate Once(m: multiset<int>) { forall t :: t in m ==> m[t] == 1 }

  /** The thread has a place in a queue. */
  ghost predicate Queued(q: Queues, t: int) {
    t in Everyone(q)
  }

  /** Every thread has one place at most, the queues fit their arrays, and the dispatched index is
      in range. */
  ghost predicate Healthy(q: Queues) {
    0 <= q.cur < |q.ready| && Once(Everyone(q)) && |q.ready| + |q.waiting| <= THREAD_MAX
  }

  lemma {:induction false} StepOnce(qs: seq<Queues>, es: seq<Entry>, n: nat, t: int)
    requires n < |es| && n + 1 < |qs| && Leads(qs, es, n) && Healthy(qs[n])
    ensures Healthy(qs[n + 1])
    ensures Queued(qs[n + 1], t) <==> Queued(qs[n], t) && !Exits(qs, es, n, t)
  {
    var q, e, q' := qs[n], es[n], qs[n + 1];
    CallConserves(q, e.reason, e.fds, e.polls);
    Sizes(q);
    Sizes(q');
    assert q.ready[q.cur] in multiset(q.ready);
  }

  lemma {:induction false} QueuedOnPath(qs: seq<Queues>, es: seq<Entry>, n: nat, t: int)
    requires Calls(qs, es) && n < |qs| && Healthy(qs[0])
    ensures Healthy(qs[n])
    ensures Queued(qs[n], t) <==> Queued(qs[0], t) && !HasExited(qs, es, n, t)
  {
    if n > 0 {
      QueuedOnPath(qs, es, n - 1, t);
      assert Leads(qs, es, n - 1);
      StepOnce(qs, es, n - 1, t);
      ExitedOneMore(qs, es, n, t);
    }
  }

  /** In every state of every run each thread that has been created and has not exited is in
      exactly one place of one queue, the queues fit their arrays, and the dispatched index is
      in range. */
  lemma {:induction false} EachQueuedOnce(qs: seq<Queues>, es: seq<Entry>, n: nat, t: int)
    requires Calls(qs, es) && n < |qs| && 0 <= qs[0].cur < |qs[0].ready|
    requires Once(Everyone(qs[0])) && |qs[0].ready| + |qs[0].waiting| <= THREAD_MAX
    ensures Once(Everyone(qs[n])) && |qs[n].ready| + |qs[n].waiting| <= THREAD_MAX
    ensures 0 <= qs[n].cur < |qs[n].ready|
    ensures t in Everyone(qs[n]) <==> t in Everyone(qs[0]) && !HasExited(qs, es, n, t)
  {
    QueuedOnPath(qs, es, n, t);
  }

  predicate HasExited(qs: seq<Queues>, es: seq<Entry>, n: int, t: int)
    requires 0 <= n <= |es| && n <= |qs|
  {
    exists k :: 0 <= k < n && Exits(qs, es, k, t)
  }

  lemma {:induction false} ExitedOneMore(qs: seq<Queues>, es: seq<Entry>, n: int, t: int)
    requires 0 < n <= |es| && n <= |qs|
    ensures HasExited(qs, es, n, t) <==> HasExited(qs, es, n - 1, t) || Exits(qs, es, n - 1, t)
  {
  }

  predicate Exits(qs: seq<Queues>, es: seq<Entry>, k: int, t: int)
    requires 0 <= k < |es| && k < |qs|
  {
    es[k].reason.EXIT? && 0 <= qs[k].cur < |qs[k].ready| && qs[k].ready[qs[k].cur] == t
  }

  lemma {:induction false} Sizes(q: Queues)
    ensures |Everyone(q)| == |q.ready| + |q.waiting|
  {
  }

  // Bounded bypass

  /** How many dispatches separate slot pos from the current one, going round. */
  function Distance(q: Queues, pos: int): int {
    if pos >= q.cur then pos - q.cur else pos + |q.ready| - q.cur
  }

  function Potential(q: Queues, pos: int): int { Distance(q, pos) + |q.ready| }

  function Woken(q: Queues, e: Entry): nat { |Readable(q.waiting, e.fds)| }

  /** One call brings a ready thread in slot pos closer to its dispatch, or sends it back by what
      two for every woken thread can buy. It is returned where the thread stands then. */
  lemma {:induction false} StepPotential(q: Queues, e: Entry, q': Queues, pos: int) returns (pos': int)
    requires 0 <= q.cur < |q.ready| && 0 <= pos < |q.ready| && pos != q.cur
    requires Whole(q, e.reason, e.fds, e.polls) == Dispatch(q')
    ensures 0 <= pos' < |q'.ready| && q'.ready[pos'] == q.ready[pos]
    ensures pos' == q'.cur || Potential(q', pos') <= Potential(q, pos) - 1 + 2 * Woken(q, e)
  {
    var w := Wake(q, e.fds);
    var last := |w.ready| - 1;
    assert w.ready[pos] == q.ready[pos];
    if e.reason.YIELD? || pos != last { pos' := pos; } else { pos' := q.cur; }
  }

  function AllWoken(qs: seq<Queues>, es: seq<Entry>, n: nat): nat
    requires n <= |es| && n <= |qs|
  {
    if n == 0 then 0 else AllWoken(qs, es, n - 1) + Woken(qs[n - 1], es[n - 1])
  }

  lemma {:induction false} PotentialAfter(qs: seq<Queues>, es: seq<Entry>, n: nat, pos: int) returns (pos': int)
    requires Calls(qs, es) && n < |qs| && 0 <= qs[0].cur < |qs[0].ready| && 0 <= pos < |qs[0].ready|
    requires forall k :: 0 <= k <= n ==> 0 <= qs[k].cur < |qs[k].ready| && qs[k].ready[qs[k].cur] != qs[0].ready[pos]
    ensures 0 <= pos' < |qs[n].ready| && pos' != qs[n].cur && qs[n].ready[pos'] == qs[0].ready[pos]
    ensures Potential(qs[n], pos') <= Potential(qs[0], pos) - n + 2 * AllWoken(qs, es, n)
  {
    pos' := pos;
    if n > 0 {
      var before := PotentialAfter(qs, es, n - 1, pos);
      assert Leads(qs, es, n - 1);
      pos' := StepPotential(qs[n - 1], es[n - 1], qs[n], before);
    }
  }

  /** Bounded bypass: a ready thread that n further calls have not dispatched has been passed at
      most twice as often as there were ready threads or threads woken meanwhile. */
  lemma {:induction false} BoundedBypass(qs: seq<Queues>, es: seq<Entry>, n: nat, t: int)
    requires Calls(qs, es) && n < |qs| && 0 <= qs[0].cur < |qs[0].ready| && t in qs[0].ready
    requires forall k :: 0 <= k <= n ==> 0 <= qs[k].cur < |qs[k].ready| && qs[k].ready[qs[k].cur] != t
    ensures n <= 2 * |qs[0].ready| - 4 + 2 * AllWoken(qs, es, n)
  {
    var pos :| 0 <= pos < |qs[0].ready| && qs[0].ready[pos] == t;
    var pos' := PotentialAfter(qs, es, n, pos);
  }

  // The woken threads are needed in the bound

  /** Threads a and b take turns at waiting while t is ready. */
  function Trading(a: int, b: int, t: int, n: nat): Queues {
    if n % 2 == 0 then Queues([a, t], 0, [b]) else Queues([b, t], 0, [a])
  }

  function TradingEntry(a: int, b: int, n: int): Entry {
    Entry(READ, {if n % 2 == 0 then b else a}, [])
  }

  lemma {:induction false} TradeTurn(a: int, b: int, t: int, n: nat)
    requires a != b
    ensures var q, e := Trading(a, b, t, n), TradingEntry(a, b, n);
      0 <= q.cur < |q.ready| && Whole(q, e.reason, e.fds, e.polls) == Dispatch(Trading(a, b, t, n + 1))
  {
    if n % 2 == 0 { TradeOnce(a, b, t); } else { TradeOnce(b, a, t); }
  }

  lemma {:induction false} TradeOnce(a: int, b: int, t: int)
    requires a != b
    ensures Whole(Queues([a, t], 0, [b]), READ, {b}, []) == Dispatch(Queues([b, t], 0, [a]))
  {
    assert [b][..0] == [];
    assert Readable([b], {b}) == [b] && Blocked([b], {b}) == [];
    var w := Wake(Queues([a, t], 0, [b]), {b});
    assert w == Queues([a, t, b], 0, []);
    assert SwapRemove([a, t, b], 0) == [b, t];
  }

  /** For every n there is a run of n calls in which a ready thread is never dispatched: without
      counting the woken threads no bound holds. */
  lemma {:induction false} StarvedWithWakeups(a: int, b: int, t: int, n: nat)
    returns (qs: seq<Queues>, es: seq<Entry>)
    requires a != b && t != a && t != b
    ensures Calls(qs, es) && |es| == n && t in qs[0].ready
    ensures forall k :: 0 <= k <= n ==> 0 <= qs[k].cur < |qs[k].ready| && qs[k].ready[qs[k].cur] != t
  {
    qs := seq(n + 1, k requires 0 <= k => Trading(a, b, t, k));
    es := seq(n, k => TradingEntry(a, b, k));
    forall k {:trigger Leads(qs, es, k)} | 0 <= k < n ensures Leads(qs, es, k) {
      TradeTurn(a, b, t, k);
    }
  }
}
