/** The three thread functions as code that is suspended and resumed: their variables live in a
    tcb, and a tcb's environment says where its code goes on. */
module Threads {
  import opened Answers

  datatype Fn = FIBONACCI | COLLATZ | MAX_SUBARRAY

  /** The setjmp that an environment returns to: in thread_setup, thread_yield or async_read. */
  datatype Point = FRESH | YIELDED | READING

  /** A tcb. `fn` is the function whose frame the environment belongs to, `taken` the count of
      numbers read from the thread's FIFO. */
  datatype Tcb = Tcb(id: int, fn: Fn, env: Point, arg: int, i: int, x: int, y: int, taken: nat)

  /** Where a stretch of code ends: in thread_yield, async_read, thread_exit, or by returning from
      a function whose caller's frame is gone. */
  datatype End = AtYield | AtRead | AtExit | Lost

  datatype Stretch = Stretch(tcb: Tcb, printed: seq<int>, end: End)

  /** The code of `fn` from `env` to its next suspension point, working on the tcb `r`; `num` is
      what read() delivers. */
  function Resume(fn: Fn, env: Point, r: Tcb, num: int): Stretch {
    match fn
    case FIBONACCI =>
      var r1 := r.(i := if env.FRESH? then 1 else r.i + 1);
      var r2 := if r1.i <= 2 then r1.(x := 1, y := 1) else r1.(x := r1.y, y := r1.x + r1.y);
      AfterPrint(r2, r2.y, r2.i == r2.arg)
    case COLLATZ =>
      if r.arg == 1 then Stretch(r, [], Lost)
      else
        var r1 := r.(arg := CollatzStep(r.arg));
        AfterPrint(r1, r1.arg, r1.arg == 1)
    case MAX_SUBARRAY =>
      if env.READING? then
        var r1 := r.(x := Max(num, r.x + num), taken := r.taken + 1);
        var r2 := r1.(y := Max(r1.y, r1.x));
        AfterPrint(r2, r2.y, r2.i == r2.arg)
      else
        Stretch(r.(i := if env.FRESH? then 1 else r.i + 1, env := READING), [], AtRead)
  }

  /** A line is printed; then the thread exits, or saves its environment in thread_yield. */
  function AfterPrint(r: Tcb, line: int, last: bool): Stretch {
    if last then Stretch(r, [line], AtExit) else Stretch(r.(env := YIELDED), [line], AtYield)
  }

  /** The tcb itself, with the code that works on it. */
  class Block {
    const id: int
    const fn: Fn
    var env: Point
    var arg: int
    var i: int
    var x: int
    var y: int
    ghost var taken: nat

    ghost function View(): Tcb
      reads this
    {
      Tcb(id, fn, env, arg, i, x, y, taken)
    }

    /** `thread_setup`. */
    constructor (id: int, fn: Fn, arg: int)
      ensures View() == Tcb(id, fn, FRESH, arg, i, 0, 0, 0)
    {
      this.id, this.fn, this.arg := id, fn, arg;
      env, x, y, taken := FRESH, 0, 0, 0;
    }

    method Fibonacci() returns (line: int, end: End)
      modifies this
      ensures Resume(FIBONACCI, old(env), old(View()), 0) == Stretch(View(), [line], end)
    {
      i := if env.FRESH? then 1 else i + 1;
      if i <= 2 {
        x, y := 1, 1;
      } else {
        var tmp := y;
        y := x + y;
        x := tmp;
      }
      line := y;
      if i == arg { end := AtExit; } else { end, env := AtYield, YIELDED; }
    }

    method Collatz() returns (line: int, end: End)
      requires arg != 1
      modifies this
      ensures Resume(COLLATZ, old(env), old(View()), 0) == Stretch(View(), [line], end)
    {
      if arg % 2 == 0 {
        arg := arg / 2;
      } else {
        arg := arg * 3;
        arg := arg + 1;
      }
      line := arg;
      if arg == 1 { end := AtExit; } else { end, env := AtYield, YIELDED; }
    }

    method MaxSubarray(num: int) returns (line: int, end: End)
      modifies this
      ensures Resume(MAX_SUBARRAY, old(env), old(View()), num)
           == Stretch(View(), if old(env).READING? then [line] else [], end)
    {
      line := 0;
      if env.READING? {
        x := Max(num, x + num);
        y := Max(y, x);
        taken := taken + 1;
        line := y;
        if i == arg { end := AtExit; } else { end, env := AtYield, YIELDED; }
      } else {
        i := if env.FRESH? then 1 else i + 1;
        end, env := AtRead, READING;
      }
    }
  }

  // What a thread prints when nobody disturbs it

  function Prefix(s: seq<int>, k: nat): seq<int> { if k <= |s| then s[..k] else s }

  /** Line number k (from 1) of a thread created with `arg`, whose FIFO brings `feed`. */
  function Answer(fn: Fn, arg: int, feed: seq<int>, k: nat): int {
    match fn
    case FIBONACCI => Fib(k)
    case COLLATZ => Iterate(arg, k)
    case MAX_SUBARRAY => RunValue(Prefix(feed, k))
  }

  /** The first n lines are right. */
  ghost predicate Right(fn: Fn, arg: int, feed: seq<int>, lines: seq<int>) {
    forall j :: 0 <= j < |lines| ==> lines[j] == Answer(fn, arg, feed, j + 1)
  }

  /** Line n is the last. */
  ghost predicate Last(fn: Fn, arg: int, n: nat) {
    n >= 1 && if fn.COLLATZ? then Iterate(arg, n) == 1 && Ongoing(fn, arg, n - 1) else n == arg
  }

  /** There are lines after line n. */
  ghost predicate Ongoing(fn: Fn, arg: int, n: nat) {
    if fn.COLLATZ? then forall j :: 0 <= j <= n ==> Iterate(arg, j) != 1 else n < arg
  }

  /** The arguments for which the functions end with a thread_exit. */
  predicate Proper(t: Tcb) {
    && t.env.FRESH? && t.x == t.y == t.taken == 0
    && if t.fn.COLLATZ? then t.arg >= 2 else t.arg >= 1
  }

  /** Thread `first`, as it was created, has printed `lines` and stands as `t` says. */
  ghost predicate Stands(first: Tcb, t: Tcb, feed: seq<int>, lines: seq<int>) {
    var k := |lines|;
    && t.id == first.id && t.fn == first.fn
    && Right(t.fn, first.arg, feed, lines) && Ongoing(t.fn, first.arg, k)
    && (t.env.FRESH? <==> k == 0 && !t.env.READING?)
    && match t.fn
       case FIBONACCI =>
         && t.arg == first.arg && !t.env.READING?
         && (k > 0 ==> t.i == k && t.y == Fib(k) && t.x == if k == 1 then 1 else Fib(k - 1))
       case COLLATZ => t.arg == Iterate(first.arg, k) && !t.env.READING?
       case MAX_SUBARRAY =>
         && t.arg == first.arg && t.taken == k <= |feed|
         && t.x == SuffixValue(feed[..k]) && t.y == RunValue(feed[..k])
         && (t.env.READING? ==> t.i == k + 1) && (t.env.YIELDED? ==> t.i == k)
  }

  lemma {:induction false} CreatedStands(first: Tcb, feed: seq<int>)
    requires Proper(first)
    ensures Stands(first, first, feed, [])
  {
    assert feed[..0] == [];
    if first.fn.COLLATZ? { assert Iterate(first.arg, 0) == first.arg; }
  }

  /** Every stretch of code prints the next right line or none, exits after the last line and
      only then, and is never lost. */
  lemma {:induction false} ResumeStands(first: Tcb, t: Tcb, feed: seq<int>, lines: seq<int>, num: int)
    requires Proper(first) && Stands(first, t, feed, lines)
    requires t.env.READING? ==> t.taken < |feed| && num == feed[t.taken]
    ensures var s := Resume(t.fn, t.env, t, num); var lines' := lines + s.printed;
      && !s.end.Lost?
      && (s.end.AtExit? ==> Right(t.fn, first.arg, feed, lines') && Last(t.fn, first.arg, |lines'|) && s.tcb.id == first.id)
      && (!s.end.AtExit? ==> Stands(first, s.tcb, feed, lines') && (s.end.AtRead? <==> s.tcb.env.READING?))
  {
    match t.fn
    case FIBONACCI => FibonacciStands(first, t, feed, lines);
    case COLLATZ => CollatzStands(first, t, feed, lines);
    case MAX_SUBARRAY => if t.env.READING? { MaxSubarrayStands(first, t, feed, lines, num); }
  }

  lemma {:induction false} FibonacciStands(first: Tcb, t: Tcb, feed: seq<int>, lines: seq<int>)
    requires Proper(first) && Stands(first, t, feed, lines) && t.fn.FIBONACCI?
    ensures var s := Resume(t.fn, t.env, t, 0); var lines' := lines + s.printed;
      && (s.end.AtExit? ==> Right(t.fn, first.arg, feed, lines') && Last(t.fn, first.arg, |lines'|) && s.tcb.id == first.id)
      && (!s.end.AtExit? ==> s.end.AtYield? && Stands(first, s.tcb, feed, lines') && s.tcb.env.YIELDED?)
  {
    var k := |lines|;
    var s := Resume(t.fn, t.env, t, 0);
    assert s.tcb.i == k + 1;
    assert s.tcb.y == Fib(k + 1) && s.tcb.x == (if k == 0 then 1 else Fib(k));
  }

  lemma {:induction false} CollatzStands(first: Tcb, t: Tcb, feed: seq<int>, lines: seq<int>)
    requires Proper(first) && Stands(first, t, feed, lines) && t.fn.COLLATZ?
    ensures var s := Resume(t.fn, t.env, t, 0); var lines' := lines + s.printed;
      && (s.end.AtExit? ==> Right(t.fn, first.arg, feed, lines') && Last(t.fn, first.arg, |lines'|) && s.tcb.id == first.id)
      && (!s.end.AtExit? ==> s.end.AtYield? && Stands(first, s.tcb, feed, lines') && s.tcb.env.YIELDED?)
  {
    var k := |lines|;
    assert Iterate(first.arg, k) != 1;
    assert Iterate(first.arg, k + 1) == CollatzStep(t.arg);
  }

  lemma {:induction false} MaxSubarrayStands(first: Tcb, t: Tcb, feed: seq<int>, lines: seq<int>, num: int)
    requires Proper(first) && Stands(first, t, feed, lines) && t.fn.MAX_SUBARRAY? && t.env.READING?
    requires t.taken < |feed| && num == feed[t.taken]
    ensures var s := Resume(t.fn, t.env, t, num); var lines' := lines + s.printed;
      && (s.end.AtExit? ==> Right(t.fn, first.arg, feed, lines') && Last(t.fn, first.arg, |lines'|) && s.tcb.id == first.id)
      && (!s.end.AtExit? ==> s.end.AtYield? && Stands(first, s.tcb, feed, lines') && s.tcb.env.YIELDED?)
  {
    var k := |lines|;
    assert feed[..k + 1][..k] == feed[..k];
  }
}
