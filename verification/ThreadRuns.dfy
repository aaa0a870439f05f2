/** Whole runs of the threads under the scheduler: signals and FIFO data arrive whenever they
    like, and each thread prints what it would print alone. */
module ThreadRuns {
  import opened Answers
  import opened Scheduler
  import opened Threads

  datatype Line = Line(id: int, value: int)

  /** The code of `exec` has the processor, or the scheduler polls, or it has returned. */
  datatype Phase = Running(exec: int) | Polling | Returned

  /** All tcbs by address, the queues, and what has been printed. */
  datatype State = State(tcbs: map<int, Tcb>, q: Queues, phase: Phase, out: seq<Line>)

  /** A stretch of code of the running thread, with or without a signal pending at its end; or
      more passes of the idle loop. */
  datatype Event =
    | Work(pending: bool, fds: set<int>, polls: seq<set<int>>)
    | Passes(polls: seq<set<int>>)

  /** What the FIFO of each thread will bring in all. */
  type Feeds = map<int, seq<int>>

  function Feed(feeds: Feeds, t: int): seq<int> { if t in feeds then feeds[t] else [] }

  /** The next number for thread t may have arrived. */
  predicate MayHaveData(feeds: Feeds, tcbs: map<int, Tcb>, t: int) {
    t in tcbs && tcbs[t].taken < |Feed(feeds, t)|
  }

  /** poll() reports only waiting threads whose data has arrived. */
  predicate Polls(feeds: Feeds, tcbs: map<int, Tcb>, waiting: seq<int>, fds: set<int>) {
    forall t :: t in fds && t in waiting ==> MayHaveData(feeds, tcbs, t)
  }

  /** The scheduler jumps to the environment of RUNNING. */
  function Entered(tcbs: map<int, Tcb>, n: Next, out: seq<Line>): State {
    match n
    case Dispatch(q) => State(tcbs, q, if 0 <= q.cur < |q.ready| then Running(q.ready[q.cur]) else Returned, out)
    case Idling(q) => State(tcbs, q, Polling, out)
    case AllGone(q) => State(tcbs, q, Returned, out)
  }

  /** The thread whose fields RUNNING names. */
  predicate HasRunning(st: State) {
    && st.phase.Running? && 0 <= st.q.cur < |st.q.ready|
    && st.q.ready[st.q.cur] in st.tcbs && st.phase.exec in st.tcbs
  }

  function RunningTcb(st: State): int
    requires HasRunning(st)
  {
    st.q.ready[st.q.cur]
  }

  /** What the code of `exec` does on the fields of RUNNING. */
  function Worked(feeds: Feeds, st: State): Stretch
    requires HasRunning(st)
  {
    var t, exec := RunningTcb(st), st.tcbs[st.phase.exec];
    var r := st.tcbs[t];
    Resume(exec.fn, exec.env, r, if r.taken < |Feed(feeds, t)| then Feed(feeds, t)[r.taken] else 0)
  }

  function Printed(out: seq<Line>, id: int, printed: seq<int>): seq<Line> {
    out + seq(|printed|, j requires 0 <= j < |printed| => Line(id, printed[j]))
  }

  predicate Step(feeds: Feeds, st: State, e: Event, st': State) {
    match e
    case Passes(polls) =>
      && st.phase.Polling?
      && (forall n :: 0 <= n < |polls| ==> Polls(feeds, st.tcbs, st.q.waiting, polls[n]))
      && st' == Entered(st.tcbs, Idle(st.q, polls), st.out)
    case Work(pending, fds, polls) =>
      && HasRunning(st)
      && var t := RunningTcb(st);
         var w := Worked(feeds, st);
         var tcbs := if w.end.AtExit? then st.tcbs - {t} else st.tcbs[t := w.tcb];
         var out := Printed(st.out, st.tcbs[t].id, w.printed);
         && !w.end.Lost?
         && Polls(feeds, tcbs, st.q.waiting, fds)
         && (forall n :: 0 <= n < |polls| ==> Polls(feeds, tcbs, st.q.waiting + [t], polls[n]))
         && if w.end.AtYield? && !pending then st' == State(tcbs, st.q, st.phase, out)
            else
              var reason := if w.end.AtYield? then YIELD else if w.end.AtRead? then READ else EXIT;
              st' == Entered(tcbs, Whole(st.q, reason, fds, polls), out)
  }

  // The lines of one thread

  function LinesOf(out: seq<Line>, id: int): seq<int> {
    if out == [] then []
    else LinesOf(out[..|out| - 1], id) + if out[|out| - 1].id == id then [out[|out| - 1].value] else []
  }

  lemma {:induction false} LinesAfter(out: seq<Line>, id: int, printed: seq<int>, other: int)
    requires |printed| <= 1
    ensures LinesOf(Printed(out, id, printed), other) == LinesOf(out, other) + if id == other then printed else []
  {
    var out' := Printed(out, id, printed);
    if printed == [] {
      assert out' == out;
    } else {
      assert out' == out + [Line(id, printed[0])];
      assert out'[..|out'| - 1] == out;
      assert printed == [printed[0]];
    }
  }

  // The invariant

  /** The threads as they were created: each with an id of its own. */
  ghost predicate Created(first: map<int, Tcb>) {
    && (forall t :: t in first ==> Proper(first[t]))
    && (forall t, u :: t in first && u in first && t != u ==> first[t].id != first[u].id)
  }

  /** What thread t has printed is right so far, and all of it once it is gone; a thread that
      waits for data is in async_read, and one that is ready there has its data. */
  ghost predicate Tracked(feeds: Feeds, first: map<int, Tcb>, st: State, t: int)
    requires t in first
  {
    var lines := LinesOf(st.out, first[t].id);
    if t in st.tcbs then
      && Stands(first[t], st.tcbs[t], Feed(feeds, t), lines)
      && (t in st.q.ready && st.tcbs[t].env.READING? ==> MayHaveData(feeds, st.tcbs, t))
      && (t in st.q.waiting ==> st.tcbs[t].env.READING?)
    else
      Right(first[t].fn, first[t].arg, Feed(feeds, t), lines) && Last(first[t].fn, first[t].arg, |lines|)
  }

  /** RUNNING denotes the tcb whose code is executing. */
  ghost predicate Placed(st: State) {
    && Once(Everyone(st.q))
    && (forall t :: t in st.tcbs <==> t in Everyone(st.q))
    && match st.phase
       case Running(exec) => 0 <= st.q.cur < |st.q.ready| && st.q.ready[st.q.cur] == exec
       case Polling => st.q.ready == [] && st.q.waiting != [] && st.q.cur == 0
       case Returned => st.q.ready == st.q.waiting == []
  }

  ghost predicate Inv(feeds: Feeds, first: map<int, Tcb>, st: State) {
    && Placed(st)
    && (forall t :: t in st.tcbs ==> t in first)
    && (forall t :: t in first ==> Tracked(feeds, first, st, t))
  }

  // What the scheduler does to the places

  /** Threads move only from waiting to ready, on data, except for the current one. */
  lemma {:induction false} ReadableIn(s: seq<int>, fds: set<int>, t: int)
    ensures t in Readable(s, fds) <==> t in s && t in fds
    ensures t in Blocked(s, fds) <==> t in s && t !in fds
  {
    if s != [] {
      var rest, u := s[..|s| - 1], s[|s| - 1];
      ReadableIn(rest, fds, t);
      assert s == rest + [u];
    }
  }

  /** A thread that is ready after some passes was ready before, or one of them woke it. */
  lemma {:induction false} IdlePlaces(q: Queues, polls: seq<set<int>>, t: int)
    ensures var q' := Idle(q, polls).q;
      && (t in q'.waiting ==> t in q.waiting)
      && (t in q'.ready ==> t in q.ready || (t in q.waiting && exists n :: 0 <= n < |polls| && t in polls[n]))
    decreases |polls|
  {
    if q.ready == [] && q.waiting != [] && polls != [] {
      ReadableIn(q.waiting, polls[0], t);
      IdlePlaces(Wake(q, polls[0]), polls[1..], t);
      var q' := Idle(q, polls).q;
      if t in q'.ready && t !in Wake(q, polls[0]).ready {
        var n :| 0 <= n < |polls[1..]| && t in polls[1..][n];
        assert t in polls[n + 1];
      }
    }
  }

  lemma {:induction false} LeavePlaces(q: Queues, reason: Reason, t: int)
    requires 0 <= q.cur < |q.ready| && Once(Everyone(q))
    ensures var q' := Leave(q, reason); var cur := q.ready[q.cur];
      && (t in q'.ready ==> t in q.ready && (reason.YIELD? || t != cur))
      && (t in q'.waiting ==> t in q.waiting || (reason.READ? && t == cur))
  {
    var cur := q.ready[q.cur];
    if !reason.YIELD? && t in SwapRemove(q.ready, q.cur) {
      SwapRemoves(q.ready, q.cur);
      assert cur in multiset(q.ready);
      assert multiset(q.ready)[cur] <= Everyone(q)[cur] == 1;
      assert t in multiset(SwapRemove(q.ready, q.cur));
    }
  }

  /** Where a thread can be after a call. */
  lemma {:induction false} WholePlaces(q: Queues, reason: Reason, fds: set<int>, polls: seq<set<int>>, t: int)
    requires 0 <= q.cur < |q.ready| && Once(Everyone(q))
    ensures var q' := Whole(q, reason, fds, polls).q; var cur := q.ready[q.cur];
      && (t in q'.waiting ==> t in q.waiting || (reason.READ? && t == cur))
      && (t in q'.ready ==>
            || (t in q.ready && (reason.YIELD? || t != cur))
            || (t in q.waiting && t in fds)
            || ((t in q.waiting || t == cur) && exists n :: 0 <= n < |polls| && t in polls[n]))
  {
    var w := Wake(q, fds);
    ReadableIn(q.waiting, fds, t);
    WakeConserves(q, fds);
    assert w.ready[q.cur] == q.ready[q.cur];
    LeavePlaces(w, reason, t);
    IdlePlaces(Leave(w, reason), polls, t);
  }

  /** A thread that the call has made ready has data. */
  lemma {:induction false} WokenHaveData(feeds: Feeds, tcbs: map<int, Tcb>, q: Queues, reason: Reason,
                                         fds: set<int>, polls: seq<set<int>>, t: int)
    requires 0 <= q.cur < |q.ready| && Once(Everyone(q)) && t in Whole(q, reason, fds, polls).q.ready
    requires t !in q.ready || (t == q.ready[q.cur] && !reason.YIELD?)
    requires Polls(feeds, tcbs, q.waiting, fds)
    requires forall n :: 0 <= n < |polls| ==> Polls(feeds, tcbs, q.waiting + [q.ready[q.cur]], polls[n])
    ensures MayHaveData(feeds, tcbs, t)
  {
    WholePlaces(q, reason, fds, polls, t);
    if t !in fds || t !in q.waiting {
      var n :| 0 <= n < |polls| && t in polls[n];
      assert Polls(feeds, tcbs, q.waiting + [q.ready[q.cur]], polls[n]);
      assert t in q.waiting + [q.ready[q.cur]];
    }
  }

  lemma {:induction false} OnceApart(q: Queues, t: int)
    requires Once(Everyone(q)) && t in q.ready
    ensures t !in q.waiting
  {
    assert t in multiset(q.ready);
    assert t in q.waiting <==> t in multiset(q.waiting);
    assert Everyone(q)[t] == multiset(q.ready)[t] + multiset(q.waiting)[t];
    assert t in Everyone(q);
  }

  lemma {:induction false} EveryoneIn(q: Queues, t: int)
    ensures t in Everyone(q) <==> t in q.ready || t in q.waiting
  {
    assert t in q.ready <==> t in multiset(q.ready);
    assert t in q.waiting <==> t in multiset(q.waiting);
  }

  // Every step keeps the invariant

  /** The running thread's code has run; nothing else has happened yet. */
  lemma {:induction false} WorkTracked(feeds: Feeds, first: map<int, Tcb>, st: State)
    requires Created(first) && Inv(feeds, first, st) && HasRunning(st)
    ensures var t, w := RunningTcb(st), Worked(feeds, st);
      var lines := LinesOf(Printed(st.out, st.tcbs[t].id, w.printed), first[t].id);
      && t in first && !w.end.Lost? && w.tcb.id == st.tcbs[t].id == first[t].id && |w.printed| <= 1
      && (w.end.AtExit? ==>
            Right(first[t].fn, first[t].arg, Feed(feeds, t), lines) && Last(first[t].fn, first[t].arg, |lines|))
      && (!w.end.AtExit? ==>
            Stands(first[t], w.tcb, Feed(feeds, t), lines) && (w.end.AtRead? <==> w.tcb.env.READING?))
  {
    var t, w := RunningTcb(st), Worked(feeds, st);
    assert Tracked(feeds, first, st, t);
    var r, feed := st.tcbs[t], Feed(feeds, t);
    ResumeStands(first[t], r, feed, LinesOf(st.out, first[t].id), if r.taken < |feed| then feed[r.taken] else 0);
    LinesAfter(st.out, r.id, w.printed, first[t].id);
  }

  /** A thread that was not running: its lines and tcb are as they were. */
  lemma {:induction false} OtherTracked(feeds: Feeds, first: map<int, Tcb>, st: State, st': State, u: int,
                                        id: int, printed: seq<int>)
    requires u in first && Tracked(feeds, first, st, u) && id != first[u].id
    requires |printed| <= 1 && st'.out == Printed(st.out, id, printed)
    requires u in st'.tcbs <==> u in st.tcbs
    requires u in st.tcbs ==> st'.tcbs[u] == st.tcbs[u]
    requires u in st'.q.waiting ==> u in st.q.waiting
    requires u in st'.q.ready ==> u in st.q.ready || MayHaveData(feeds, st'.tcbs, u)
    ensures Tracked(feeds, first, st', u)
  {
    LinesAfter(st.out, id, printed, first[u].id);
  }

  lemma {:induction false} ContinueKeeps(feeds: Feeds, first: map<int, Tcb>, st: State, st': State)
    requires Created(first) && Inv(feeds, first, st) && HasRunning(st)
    requires var t, w := RunningTcb(st), Worked(feeds, st);
      w.end.AtYield?
      && st' == State(st.tcbs[t := w.tcb], st.q, st.phase, Printed(st.out, st.tcbs[t].id, w.printed))
    ensures Inv(feeds, first, st')
  {
    var t := RunningTcb(st);
    WorkTracked(feeds, first, st);
    OnceApart(st.q, t);
    forall u | u in first ensures Tracked(feeds, first, st', u) {
      if u != t { OtherTracked(feeds, first, st, st', u, first[t].id, Worked(feeds, st).printed); }
    }
  }

  /** The scheduler is entered for a reason with these answers of poll(), `t` being the current
      thread and `tcbs` the tcbs it leaves. */
  ghost predicate Enters(feeds: Feeds, st: State, t: int, w: Stretch, reason: Reason, fds: set<int>,
                         polls: seq<set<int>>, tcbs: map<int, Tcb>)
  {
    && HasRunning(st) && t == RunningTcb(st) && w == Worked(feeds, st)
    && tcbs == (if w.end.AtExit? then st.tcbs - {t} else st.tcbs[t := w.tcb])
    && (reason.EXIT? <==> w.end.AtExit?) && (reason.READ? <==> w.end.AtRead?)
    && Polls(feeds, tcbs, st.q.waiting, fds)
    && (forall n :: 0 <= n < |polls| ==> Polls(feeds, tcbs, st.q.waiting + [t], polls[n]))
  }

  /** The scheduler leaves the places of all threads as `Whole` says. */
  lemma {:induction false} EnterKeeps(feeds: Feeds, first: map<int, Tcb>, st: State, t: int, w: Stretch, reason: Reason,
                                      fds: set<int>, polls: seq<set<int>>, tcbs: map<int, Tcb>, st': State)
    requires Created(first) && Inv(feeds, first, st) && Enters(feeds, st, t, w, reason, fds, polls, tcbs)
    requires st' == Entered(tcbs, Whole(st.q, reason, fds, polls), Printed(st.out, st.tcbs[t].id, w.printed))
    ensures Inv(feeds, first, st')
  {
    assert Tracked(feeds, first, st, t);
    EnterPlaced(feeds, st, reason, fds, polls, tcbs, st');
    forall u | u in first ensures Tracked(feeds, first, st', u) {
      if u == t {
        OwnEntered(feeds, first, st, t, w, reason, fds, polls, tcbs, st');
      } else {
        OtherEntered(feeds, first, st, t, w, reason, fds, polls, tcbs, st', u);
      }
    }
  }

  lemma {:induction false} OwnEntered(feeds: Feeds, first: map<int, Tcb>, st: State, t: int, w: Stretch, reason: Reason,
                                      fds: set<int>, polls: seq<set<int>>, tcbs: map<int, Tcb>, st': State)
    requires Created(first) && Inv(feeds, first, st) && Enters(feeds, st, t, w, reason, fds, polls, tcbs) && t in first
    requires st' == Entered(tcbs, Whole(st.q, reason, fds, polls), Printed(st.out, st.tcbs[t].id, w.printed))
    ensures Tracked(feeds, first, st', t)
  {
    WorkTracked(feeds, first, st);
    WholePlaces(st.q, reason, fds, polls, t);
    OnceApart(st.q, t);
    if t in st'.q.ready && reason.READ? { WokenHaveData(feeds, tcbs, st.q, reason, fds, polls, t); }
  }

  lemma {:induction false} OtherEntered(feeds: Feeds, first: map<int, Tcb>, st: State, t: int, w: Stretch, reason: Reason,
                                        fds: set<int>, polls: seq<set<int>>, tcbs: map<int, Tcb>, st': State, u: int)
    requires Created(first) && Inv(feeds, first, st) && Enters(feeds, st, t, w, reason, fds, polls, tcbs)
    requires st' == Entered(tcbs, Whole(st.q, reason, fds, polls), Printed(st.out, st.tcbs[t].id, w.printed))
    requires u in first && u != t
    ensures Tracked(feeds, first, st', u)
  {
    WorkTracked(feeds, first, st);
    assert Tracked(feeds, first, st, u);
    WholePlaces(st.q, reason, fds, polls, u);
    if u in st'.q.ready && u !in st.q.ready { WokenHaveData(feeds, tcbs, st.q, reason, fds, polls, u); }
    OtherTracked(feeds, first, st, st', u, first[t].id, w.printed);
  }

  lemma {:induction false} EnterPlaced(feeds: Feeds, st: State, reason: Reason, fds: set<int>, polls: seq<set<int>>,
                                       tcbs: map<int, Tcb>, st': State)
    requires Placed(st) && HasRunning(st)
    requires st'.tcbs == tcbs && tcbs.Keys == if reason.EXIT? then st.tcbs.Keys - {RunningTcb(st)} else st.tcbs.Keys
    requires st' == Entered(tcbs, Whole(st.q, reason, fds, polls), st'.out)
    ensures Placed(st')
  {
    CallConserves(st.q, reason, fds, polls);
    assert RunningTcb(st) in Everyone(st.q);
    forall u ensures u in tcbs <==> u in Everyone(st'.q) { assert u in tcbs <==> u in tcbs.Keys; }
  }

  lemma {:induction false} PassesKeep(feeds: Feeds, first: map<int, Tcb>, st: State, polls: seq<set<int>>, st': State)
    requires Created(first) && Inv(feeds, first, st) && st.phase.Polling?
    requires forall n :: 0 <= n < |polls| ==> Polls(feeds, st.tcbs, st.q.waiting, polls[n])
    requires st' == Entered(st.tcbs, Idle(st.q, polls), st.out)
    ensures Inv(feeds, first, st')
  {
    IdleConserves(st.q, polls);
    forall u | u in first ensures Tracked(feeds, first, st', u) {
      assert Tracked(feeds, first, st, u);
      IdlePlaces(st.q, polls, u);
      if u in st'.q.ready {
        var n :| 0 <= n < |polls| && u in polls[n];
        assert Polls(feeds, st.tcbs, st.q.waiting, polls[n]);
      }
    }
  }

  lemma {:induction false} StepKeeps(feeds: Feeds, first: map<int, Tcb>, st: State, e: Event, st': State)
    requires Created(first) && Inv(feeds, first, st) && Step(feeds, st, e, st')
    ensures Inv(feeds, first, st')
  {
    match e
    case Passes(polls) => PassesKeep(feeds, first, st, polls, st');
    case Work(pending, fds, polls) => WorkKeeps(feeds, first, st, pending, fds, polls, st');
  }

  lemma {:induction false} WorkKeeps(feeds: Feeds, first: map<int, Tcb>, st: State, pending: bool, fds: set<int>,
                                     polls: seq<set<int>>, st': State)
    requires Created(first) && Inv(feeds, first, st) && Step(feeds, st, Work(pending, fds, polls), st')
    ensures Inv(feeds, first, st')
  {
    var t, w := RunningTcb(st), Worked(feeds, st);
    if w.end.AtYield? && !pending {
      ContinueKeeps(feeds, first, st, st');
    } else {
      var reason := if w.end.AtYield? then YIELD else if w.end.AtRead? then READ else EXIT;
      var tcbs := if w.end.AtExit? then st.tcbs - {t} else st.tcbs[t := w.tcb];
      assert st' == Entered(tcbs, Whole(st.q, reason, fds, polls), Printed(st.out, st.tcbs[t].id, w.printed));
      EnterKeeps(feeds, first, st, t, w, reason, fds, polls, tcbs, st');
    }
  }

  // Runs

  /** `main` has created the threads in `order` and calls the scheduler. */
  ghost predicate Begins(first: map<int, Tcb>, order: seq<int>, st: State) {
    && order != [] && Created(first)
    && Once(multiset(order)) && (forall t :: t in first <==> t in order)
    && st == State(first, Queues(order, 0, []), Running(order[0]), [])
  }

  ghost predicate Run(feeds: Feeds, first: map<int, Tcb>, order: seq<int>, sts: seq<State>, es: seq<Event>) {
    && |sts| == |es| + 1 && Begins(first, order, sts[0])
    && forall n :: 0 <= n < |es| ==> Step(feeds, sts[n], es[n], sts[n + 1])
  }

  lemma {:induction false} BeginKeeps(feeds: Feeds, first: map<int, Tcb>, order: seq<int>, st: State)
    requires Begins(first, order, st)
    ensures Inv(feeds, first, st)
  {
    forall t ensures t in first <==> t in Everyone(st.q) { EveryoneIn(st.q, t); }
    assert Everyone(st.q) == multiset(order);
    forall t | t in first ensures Tracked(feeds, first, st, t) { CreatedStands(first[t], Feed(feeds, t)); }
  }

  lemma {:induction false} RunKeeps(feeds: Feeds, first: map<int, Tcb>, order: seq<int>, sts: seq<State>,
                                    es: seq<Event>, n: nat)
    requires Run(feeds, first, order, sts, es) && n < |sts|
    ensures Inv(feeds, first, sts[n])
  {
    if n == 0 {
      BeginKeeps(feeds, first, order, sts[0]);
    } else {
      RunKeeps(feeds, first, order, sts, es, n - 1);
      assert Step(feeds, sts[n - 1], es[n - 1], sts[n - 1 + 1]);
      StepKeeps(feeds, first, sts[n - 1], es[n - 1], sts[n]);
    }
  }

  /** What the lines are, without reference to the code: Fibonacci numbers, the Collatz sequence of
      the argument, and the greatest sums over all runs of the numbers read so far. */
  ghost predicate Meant(fn: Fn, arg: int, feed: seq<int>, lines: seq<int>) {
    forall k :: 0 <= k < |lines| ==> LineMeant(fn, arg, feed, lines, k)
  }

  ghost predicate LineMeant(fn: Fn, arg: int, feed: seq<int>, lines: seq<int>, k: int)
    requires 0 <= k < |lines|
  {
    match fn
    case FIBONACCI => lines[k] == if k < 2 then 1 else lines[k - 2] + lines[k - 1]
    case COLLATZ =>
      var v := if k == 0 then arg else lines[k - 1];
      lines[k] >= 1 && (v % 2 == 0 ==> 2 * lines[k] == v) && (v % 2 == 1 ==> lines[k] == 3 * v + 1)
    case MAX_SUBARRAY => GreatestRun(if k + 1 <= |feed| then feed[..k + 1] else feed, lines[k])
  }

  lemma {:induction false} RightMeant(fn: Fn, arg: int, feed: seq<int>, lines: seq<int>)
    requires Right(fn, arg, feed, lines) && (fn.COLLATZ? ==> arg >= 2)
    ensures Meant(fn, arg, feed, lines)
  {
    forall k | 0 <= k < |lines| ensures LineMeant(fn, arg, feed, lines, k) {
      assert lines[k] == Answer(fn, arg, feed, k + 1);
      if k > 0 { assert lines[k - 1] == Answer(fn, arg, feed, k); }
      if k > 1 { assert lines[k - 2] == Answer(fn, arg, feed, k - 1); }
      match fn
      case FIBONACCI =>
        assert Fib(1) == Fib(2) == 1;
        assert k > 1 ==> Fib(k + 1) == Fib(k) + Fib(k - 1);
      case COLLATZ =>
        assert Iterate(arg, 0) == arg && Iterate(arg, k + 1) == CollatzStep(Iterate(arg, k));
        IteratePositive(arg, k + 1);
      case MAX_SUBARRAY => RunValueIsGreatest(Prefix(feed, k + 1));
    }
  }

  /** Schedule independence: whatever signals and data arrive when, the lines under a thread's id
      are the first lines it would print alone, and all of them once it has exited. Those of
      `collatz` are positive, so that C's division is the model's. */
  lemma {:induction false} LinesRight(feeds: Feeds, first: map<int, Tcb>, order: seq<int>, sts: seq<State>,
                                      es: seq<Event>, n: nat, t: int)
    requires Run(feeds, first, order, sts, es) && n < |sts| && t in first
    ensures var lines := LinesOf(sts[n].out, first[t].id);
      && Right(first[t].fn, first[t].arg, Feed(feeds, t), lines)
      && (if t in sts[n].tcbs then Ongoing(first[t].fn, first[t].arg, |lines|)
          else Last(first[t].fn, first[t].arg, |lines|))
      && Meant(first[t].fn, first[t].arg, Feed(feeds, t), lines)
  {
    RunKeeps(feeds, first, order, sts, es, n);
    assert Tracked(feeds, first, sts[n], t);
    RightMeant(first[t].fn, first[t].arg, Feed(feeds, t), LinesOf(sts[n].out, first[t].id));
  }

  /** At a thread_yield a pending signal hands the processor to the thread in the next slot, round the
      queue with the threads that the pass has woken; without one the thread goes on. */
  lemma {:induction false} SignalSwitches(feeds: Feeds, first: map<int, Tcb>, order: seq<int>, sts: seq<State>,
                                          es: seq<Event>, n: nat)
    requires Run(feeds, first, order, sts, es) && n < |es| && es[n].Work? && HasRunning(sts[n])
    requires Worked(feeds, sts[n]).end.AtYield?
    ensures var q, q' := sts[n].q, sts[n + 1].q;
      if es[n].pending then
        && q'.ready == q.ready + Readable(q.waiting, es[n].fds) && q'.waiting == Blocked(q.waiting, es[n].fds)
        && q'.cur == (if q.cur + 1 < |q'.ready| then q.cur + 1 else 0)
        && sts[n + 1].phase == Running(q'.ready[q'.cur])
      else q' == q && sts[n + 1].phase == sts[n].phase
  {
    assert Step(feeds, sts[n], es[n], sts[n + 1]);
    CallIs(sts[n].q, YIELD, es[n].fds, es[n].polls);
  }

  /** RUNNING always denotes the tcb whose code is executing, and the scheduler returns to `main`
      only when every thread has printed its last line and exited. */
  lemma {:induction false} RunningIsExecuting(feeds: Feeds, first: map<int, Tcb>, order: seq<int>, sts: seq<State>,
                                              es: seq<Event>, n: nat)
    requires Run(feeds, first, order, sts, es) && n < |sts|
    ensures sts[n].phase.Running? ==> HasRunning(sts[n]) && RunningTcb(sts[n]) == sts[n].phase.exec
    ensures sts[n].phase.Returned? <==> sts[n].tcbs == map[]
  {
    RunKeeps(feeds, first, order, sts, es, n);
    var st := sts[n];
    if st.phase.Running? {
      EveryoneIn(st.q, st.phase.exec);
    } else if st.phase.Polling? {
      EveryoneIn(st.q, st.q.waiting[0]);
    } else {
      forall t ensures t !in st.tcbs { EveryoneIn(st.q, t); }
    }
  }

  /** While a thread runs the machine has a step: no code is ever lost, and no thread reads a
      number that has not arrived. */
  lemma {:induction false} NeverStuck(feeds: Feeds, first: map<int, Tcb>, order: seq<int>, sts: seq<State>,
                                      es: seq<Event>, n: nat)
    requires Run(feeds, first, order, sts, es) && n < |sts| && sts[n].phase.Running?
    ensures exists e, st' :: Step(feeds, sts[n], e, st')
    ensures HasRunning(sts[n])
    ensures var t := RunningTcb(sts[n]);
      sts[n].tcbs[t].env.READING? ==> sts[n].tcbs[t].taken < |Feed(feeds, t)|
  {
    RunKeeps(feeds, first, order, sts, es, n);
    RunningIsExecuting(feeds, first, order, sts, es, n);
    var st := sts[n];
    WorkTracked(feeds, first, st);
    var t, w := RunningTcb(st), Worked(feeds, st);
    assert Tracked(feeds, first, st, t);
    var reason := if w.end.AtYield? then YIELD else if w.end.AtRead? then READ else EXIT;
    var tcbs := if w.end.AtExit? then st.tcbs - {t} else st.tcbs[t := w.tcb];
    var out := Printed(st.out, st.tcbs[t].id, w.printed);
    assert Step(feeds, st, Work(true, {}, []), Entered(tcbs, Whole(st.q, reason, {}, []), out));
  }

  // Starvation

  /** A max_subarray thread that stands between two numbers; its FIFO brings n. */
  predicate Midway(feeds: Feeds, c: Tcb, t: int, n: nat, most: nat) {
    && c.fn.MAX_SUBARRAY? && c.arg == n + 1 && |Feed(feeds, t)| == n && c.taken <= most
    && c.i == (match c.env case FRESH => c.i case READING => c.taken + 1 case YIELDED => c.taken)
    && (c.env.FRESH? ==> c.taken == 0)
  }

  /** x runs, y waits for its next number, and t is ready. */
  predicate TakesTurns(feeds: Feeds, st: State, x: int, y: int, t: int, n: nat, most: nat) {
    && x != y && x != t && y != t && x in st.tcbs && y in st.tcbs && t in st.tcbs
    && st.q == Queues([x, t], 0, [y]) && st.phase == Running(x)
    && Midway(feeds, st.tcbs[x], x, n, most) && Midway(feeds, st.tcbs[y], y, n, most) && st.tcbs[y].env.READING?
  }

  /** x prints a line, or waits for its next number while y's arrives. */
  lemma {:induction false} TurnTaken(feeds: Feeds, st: State, x: int, y: int, t: int, n: nat, most: nat)
    returns (e: Event, st': State)
    requires TakesTurns(feeds, st, x, y, t, n, most) && most < n
    ensures Step(feeds, st, e, st')
    ensures TakesTurns(feeds, st', x, y, t, n, most + 1) || TakesTurns(feeds, st', y, x, t, n, most + 1)
  {
    var w := Worked(feeds, st);
    var tcbs, out := st.tcbs[x := w.tcb], Printed(st.out, st.tcbs[x].id, w.printed);
    if st.tcbs[x].env.READING? {
      e, st' := Work(false, {}, []), State(tcbs, st.q, st.phase, out);
    } else {
      TradeOnce(x, y, t);
      e, st' := Work(false, {y}, []), State(tcbs, Queues([y, t], 0, [x]), Running(y), out);
    }
  }

  /** Two max_subarray threads that are created before and after t. */
  function Rivals(a: int, b: int, t: int, c: Tcb, n: nat): map<int, Tcb> {
    map[a := Tcb(c.id + 1, MAX_SUBARRAY, FRESH, n + 1, 0, 0, 0, 0), t := c,
        b := Tcb(c.id + 2, MAX_SUBARRAY, FRESH, n + 1, 0, 0, 0, 0)]
  }

  function Numbers(a: int, b: int, n: nat): Feeds { map[a := seq(n, _ => 0), b := seq(n, _ => 0)] }

  ghost predicate NeverRuns(sts: seq<State>, t: int) {
    forall k :: 0 <= k < |sts| ==> sts[k].phase.Running? && sts[k].phase.exec != t && t in sts[k].q.ready
  }

  lemma {:induction false} RunLonger(feeds: Feeds, first: map<int, Tcb>, order: seq<int>, sts: seq<State>,
                                     es: seq<Event>, e: Event, st': State)
    requires Run(feeds, first, order, sts, es) && Step(feeds, sts[|es|], e, st')
    ensures Run(feeds, first, order, sts + [st'], es + [e])
  {
    var sts', es' := sts + [st'], es + [e];
    forall i | 0 <= i < |es'| ensures Step(feeds, sts'[i], es'[i], sts'[i + 1]) {
      if i < |es| { assert Step(feeds, sts[i], es[i], sts[i + 1]); }
    }
  }

  /** The first of them has begun to wait; k further steps leave t ready and never let it run. */
  lemma {:induction false} Starving(a: int, b: int, t: int, c: Tcb, n: nat, k: nat)
    returns (sts: seq<State>, es: seq<Event>, x: int, y: int)
    requires a != b && a != t && b != t && Proper(c) && k <= n
    ensures Run(Numbers(a, b, n), Rivals(a, b, t, c, n), [a, t, b], sts, es) && |es| == k + 1 && NeverRuns(sts, t)
    ensures TakesTurns(Numbers(a, b, n), sts[k + 1], x, y, t, n, k)
  {
    var feeds, first := Numbers(a, b, n), Rivals(a, b, t, c, n);
    if k == 0 {
      var st, st' := FirstTurn(a, b, t, c, n);
      sts, es, x, y := [st, st'], [Work(false, {}, [])], b, a;
    } else {
      sts, es, x, y := Starving(a, b, t, c, n, k - 1);
      sts, es, x, y := StarvesOn(feeds, first, [a, t, b], sts, es, x, y, t, n, k - 1);
    }
  }

  /** One step more. */
  lemma {:induction false} StarvesOn(feeds: Feeds, first: map<int, Tcb>, order: seq<int>, sts: seq<State>,
                                     es: seq<Event>, x: int, y: int, t: int, n: nat, most: nat)
    returns (sts': seq<State>, es': seq<Event>, x': int, y': int)
    requires Run(feeds, first, order, sts, es) && NeverRuns(sts, t)
    requires TakesTurns(feeds, sts[|es|], x, y, t, n, most) && most < n
    ensures Run(feeds, first, order, sts', es') && |es'| == |es| + 1 && NeverRuns(sts', t)
    ensures TakesTurns(feeds, sts'[|es'|], x', y', t, n, most + 1)
  {
    var e, st' := TurnTaken(feeds, sts[|es|], x, y, t, n, most);
    RunLonger(feeds, first, order, sts, es, e, st');
    sts', es' := sts + [st'], es + [e];
    if TakesTurns(feeds, st', x, y, t, n, most + 1) { x', y' := x, y; } else { x', y' := y, x; }
  }

  lemma {:induction false} FirstTrade(a: int, b: int, t: int)
    ensures Whole(Queues([a, t, b], 0, []), READ, {}, []) == Dispatch(Queues([b, t], 0, [a]))
  {
    assert SwapRemove([a, t, b], 0) == [b, t];
    assert Wake(Queues([a, t, b], 0, []), {}) == Queues([a, t, b], 0, []);
  }

  lemma {:induction false} FirstTurn(a: int, b: int, t: int, c: Tcb, n: nat) returns (st: State, st': State)
    requires a != b && a != t && b != t && Proper(c)
    ensures Begins(Rivals(a, b, t, c, n), [a, t, b], st)
    ensures Step(Numbers(a, b, n), st, Work(false, {}, []), st')
    ensures TakesTurns(Numbers(a, b, n), st', b, a, t, n, 0)
    ensures st.phase == Running(a) && t in st.q.ready
  {
    var feeds, first := Numbers(a, b, n), Rivals(a, b, t, c, n);
    st := State(first, Queues([a, t, b], 0, []), Running(a), []);
    var w := Worked(feeds, st);
    FirstTrade(a, b, t);
    st' := State(first[a := w.tcb], Queues([b, t], 0, [a]), Running(b), []);
    assert Printed([], first[a].id, w.printed) == [];
  }

  /** For every n there is a run of the threads with more than n stretches of code in which a ready
      thread never runs: two threads whose numbers arrive in turn trade one slot, and no signal
      comes. */
  lemma {:induction false} ThreadStarves(a: int, b: int, t: int, c: Tcb, n: nat)
    returns (feeds: Feeds, first: map<int, Tcb>, sts: seq<State>, es: seq<Event>)
    requires a != b && a != t && b != t && Proper(c)
    ensures Run(feeds, first, [a, t, b], sts, es) && first[t] == c && |es| > n
    ensures NeverRuns(sts, t)
  {
    feeds, first := Numbers(a, b, n), Rivals(a, b, t, c, n);
    var x, y;
    sts, es, x, y := Starving(a, b, t, c, n, n);
  }
}
