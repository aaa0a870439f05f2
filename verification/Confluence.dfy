/** Steps of different processes do not get into each other's way; hence, if one run of the
    tournament finishes, every run does, in the same final state. */
module Confluence {
  import opened Battle
  import opened Network

  /** Both are about to write the same FIFO. */
  predicate Clash(b: Bracket, s: Net, p: int, q: int) {
    var x, y := Doing(b, p, Loc(s, p)), Doing(b, q, Loc(s, q));
    x.Send? && y.Send? && x.c == y.c && x.c.Fifo?
  }

  /** The pipes that two processes are about to use are different, or one writes and one reads. */
  lemma {:induction false} DifferentEnds(b: Bracket, s: Net, p: int, q: int)
    requires WellFormed(b) && Typed(b, s) && InTree(b, p) && InTree(b, q) && p != q && !Clash(b, s, p, q)
    ensures var x, y := Doing(b, p, s.loc[p]), Doing(b, q, s.loc[q]);
      && !(x.Recv? && y.Recv? && x.c == y.c)
      && !(x.Send? && y.Send? && x.c == y.c)
  {
    OwnEnds(b, p, s.loc[p]);
    OwnEnds(b, q, s.loc[q]);
  }

  /** A step of p leaves q's step possible, and what q is about to do. */
  lemma {:induction false} StaysEnabled(b: Bracket, s: Net, p: int, q: int)
    requires WellFormed(b) && Typed(b, s) && Enabled(b, s, p) && Enabled(b, s, q) && p != q && !Clash(b, s, p, q)
    ensures var t := Do(b, s, p);
      && t.loc[q] == s.loc[q] && Enabled(b, t, q)
      && (Doing(b, q, s.loc[q]).Recv? ==> Get(t, Doing(b, q, s.loc[q]).c)[0] == Get(s, Doing(b, q, s.loc[q]).c)[0])
  {
    DifferentEnds(b, s, p, q);
    OthersStay(b, s, p);
    if Doing(b, q, s.loc[q]).Recv? { PipeStays(b, s, p, Doing(b, q, s.loc[q]).c); }
  }

  /** A step changes no other process, exits no exited one, and closes no opened FIFO. */
  lemma {:induction false} OthersStay(b: Bracket, s: Net, p: int)
    requires Enabled(b, s, p)
    ensures var t := Do(b, s, p);
      && |t.loc| == |s.loc|
      && (forall n {:trigger Loc(t, n)} :: n != p ==> Loc(t, n) == Loc(s, n))
      && !Loc(t, p).Opening? && !Loc(s, p).Gone?
  {
  }

  /** What a pipe begins with is changed by its reader only. */
  lemma {:induction false} PipeStays(b: Bracket, s: Net, p: int, c: Chan)
    requires Enabled(b, s, p) && Get(s, c) != [] && !(Doing(b, p, s.loc[p]).Recv? && Doing(b, p, s.loc[p]).c == c)
    ensures Get(Do(b, s, p), c) != [] && Get(Do(b, s, p), c)[0] == Get(s, c)[0]
  {
  }

  /** The diamond: two processes that can both step can step in either order, with the same
      result. */
  lemma {:induction false} Diamond(b: Bracket, s: Net, p: int, q: int)
    requires WellFormed(b) && Typed(b, s) && Enabled(b, s, p) && Enabled(b, s, q) && p != q && !Clash(b, s, p, q)
    ensures Enabled(b, Do(b, s, p), q) && Enabled(b, Do(b, s, q), p)
    ensures Do(b, Do(b, s, p), q) == Do(b, Do(b, s, q), p)
  {
    StaysEnabled(b, s, p, q);
    StaysEnabled(b, s, q, p);
    DifferentEnds(b, s, p, q);
    var u, v := Do(b, Do(b, s, p), q), Do(b, Do(b, s, q), p);
    assert u.loc == v.loc;
    SameChannels(b, s, p, q);
  }

  lemma {:induction false} SameChannels(b: Bracket, s: Net, p: int, q: int)
    requires WellFormed(b) && Typed(b, s) && Enabled(b, s, p) && Enabled(b, s, q) && p != q && !Clash(b, s, p, q)
    requires Enabled(b, Do(b, s, p), q) && Enabled(b, Do(b, s, q), p)
    ensures Do(b, Do(b, s, p), q).ch == Do(b, Do(b, s, q), p).ch
  {
    DifferentEnds(b, s, p, q);
    var x, y := Doing(b, p, s.loc[p]), Doing(b, q, s.loc[q]);
    assert Do(b, s, p).ch == Piped(s.ch, x) && Do(b, s, q).ch == Piped(s.ch, y);
    assert Do(b, s, p).loc[q] == s.loc[q] && Do(b, s, q).loc[p] == s.loc[p];
    assert Do(b, Do(b, s, p), q).ch == Piped(Piped(s.ch, x), y);
    assert Do(b, Do(b, s, q), p).ch == Piped(Piped(s.ch, y), x);
    PipesCommute(s.ch, x, y);
  }

  /** The pipes after an act. */
  function Piped(ch: map<Chan, seq<Status>>, x: Act): map<Chan, seq<Status>> {
    match x
    case Recv(c) => if At(ch, c) == [] then ch else ch[c := At(ch, c)[1..]]
    case Send(c, m) => ch[c := At(ch, c) + [m]]
    case _ => ch
  }

  lemma {:induction false} PipesCommute(ch: map<Chan, seq<Status>>, x: Act, y: Act)
    requires x.Recv? ==> At(ch, x.c) != []
    requires y.Recv? ==> At(ch, y.c) != []
    requires !(x.Recv? && y.Recv? && x.c == y.c) && !(x.Send? && y.Send? && x.c == y.c)
    ensures Piped(Piped(ch, x), y) == Piped(Piped(ch, y), x)
  {
    if (x.Recv? || x.Send?) && (y.Recv? || y.Send?) {
      if x.c == y.c {
        var w := At(ch, x.c);
        if x.Recv? {
          assert (w + [y.m])[1..] == w[1..] + [y.m];
        } else {
          assert (w + [x.m])[1..] == w[1..] + [x.m];
        }
      }
      assert Piped(Piped(ch, x), y).Keys == Piped(Piped(ch, y), x).Keys;
    }
  }

  // Runs

  ghost predicate Path(b: Bracket, s: Net, run: seq<int>, t: Net)
    decreases run
  {
    if run == [] then s == t else Enabled(b, s, run[0]) && Path(b, Do(b, s, run[0]), run[1..], t)
  }

  /** Every process has exited, and every FIFO has been emptied. */
  ghost predicate Final(b: Bracket, t: Net) {
    && (forall n :: 0 <= n < |t.loc| ==> t.loc[n].Gone?)
    && (forall a :: Get(t, Fifo(a)) == [])
  }

  /** How many statuses have been handed to agent a so far. */
  function HandedTo(s: Net, a: int): int {
    |Get(s, Fifo(a))| + if Loc(s, a).Opening? || Loc(s, a).Listening? then 0 else 1
  }

  lemma {:induction false} HandedGrows(b: Bracket, s: Net, p: int, a: int)
    requires WellFormed(b) && Typed(b, s) && Enabled(b, s, p)
    ensures var x := Doing(b, p, s.loc[p]);
      HandedTo(Do(b, s, p), a) >= HandedTo(s, a) + if x.Send? && x.c == Fifo(a) then 1 else 0
  {
    OwnEnds(b, p, s.loc[p]);
    assert LocalOk(b, p, s.loc[p]);
  }

  lemma {:induction false} HandedOnPath(b: Bracket, s: Net, run: seq<int>, t: Net, a: int)
    requires WellFormed(b) && Typed(b, s) && Path(b, s, run, t)
    ensures HandedTo(s, a) <= HandedTo(t, a)
    decreases run
  {
    if run != [] {
      HandedGrows(b, s, run[0], a);
      StaysTyped(b, s, run[0]);
      HandedOnPath(b, Do(b, s, run[0]), run[1..], t, a);
    }
  }

  /** Nobody is about to hand anything to an agent that has been handed its status, if the
      tournament can still finish from here. */
  lemma {:induction false} NoSecondHand(b: Bracket, s: Net, run: seq<int>, t: Net, q: int, a: int)
    requires WellFormed(b) && Typed(b, s) && Path(b, s, run, t) && Final(b, t)
    requires InTree(b, q) && Doing(b, q, s.loc[q]).Send? && Doing(b, q, s.loc[q]).c == Fifo(a)
    ensures HandedTo(s, a) < HandedTo(t, a) <= 1
    decreases run
  {
    assert Get(t, Fifo(a)) == [];
    if run != [] {
      var p := run[0];
      HandedGrows(b, s, p, a);
      StaysTyped(b, s, p);
      if p == q {
        HandedOnPath(b, Do(b, s, p), run[1..], t, a);
      } else {
        NoSecondHand(b, Do(b, s, p), run[1..], t, q, a);
      }
    }
  }

  lemma {:induction false} NoClash(b: Bracket, s: Net, run: seq<int>, t: Net, q: int)
    requires WellFormed(b) && Typed(b, s) && Path(b, s, run, t) && Final(b, t) && run != []
    requires Enabled(b, s, q) && q != run[0]
    ensures !Clash(b, s, run[0], q)
  {
    var p := run[0];
    if Clash(b, s, p, q) {
      var a := Doing(b, p, s.loc[p]).c.n;
      HandedGrows(b, s, p, a);
      HandedPositive(s, a);
      StaysTyped(b, s, p);
      NoSecondHand(b, Do(b, s, p), run[1..], t, q, a);
    }
  }

  lemma {:induction false} HandedPositive(s: Net, a: int)
    ensures HandedTo(s, a) >= 0
  {
  }

  /** Whichever process steps first, the final state is reached in as many steps. */
  lemma {:induction false} OtherFirst(b: Bracket, s: Net, run: seq<int>, t: Net, q: int) returns (run': seq<int>)
    requires WellFormed(b) && Typed(b, s) && Path(b, s, run, t) && Final(b, t) && Enabled(b, s, q)
    ensures |run'| == |run| - 1 && Path(b, Do(b, s, q), run', t)
    decreases run
  {
    if run == [] {
      assert false;
    } else if run[0] == q {
      run' := run[1..];
    } else {
      var p := run[0];
      NoClash(b, s, run, t, q);
      Diamond(b, s, p, q);
      StaysTyped(b, s, p);
      var rest := OtherFirst(b, Do(b, s, p), run[1..], t, q);
      run' := [p] + rest;
      assert run'[1..] == rest;
    }
  }

  /** If one run from s finishes, every run from s can be continued to the same end, and all have
      the same number of steps: no run is stuck or goes on for ever. */
  lemma {:induction false} EveryRunFinishes(b: Bracket, s: Net, run: seq<int>, t: Net, other: seq<int>, u: Net)
    returns (rest: seq<int>)
    requires WellFormed(b) && Typed(b, s) && Path(b, s, run, t) && Final(b, t) && Path(b, s, other, u)
    ensures Path(b, u, rest, t) && |other| + |rest| == |run|
    decreases other
  {
    if other == [] {
      rest := run;
    } else {
      var q := other[0];
      var run' := OtherFirst(b, s, run, t, q);
      StaysTyped(b, s, q);
      rest := EveryRunFinishes(b, Do(b, s, q), run', t, other[1..], u);
    }
  }

  ghost predicate ReachesIn(b: Bracket, u: Net, k: int, t: Net) { exists rest :: |rest| == k && Path(b, u, rest, t) }

  ghost predicate NothingMoves(b: Bracket, u: Net) { forall n :: !Enabled(b, u, n) }

  /** Every run from s is at most n steps long, can be continued to t by the rest of the n steps, and
      is at t where nothing can move. */
  ghost predicate EveryRunEnds(b: Bracket, s: Net, n: nat, t: Net) {
    Final(b, t) && forall run, u :: Path(b, s, run, u) ==>
      |run| <= n && ReachesIn(b, u, n - |run|, t) && (NothingMoves(b, u) ==> u == t)
  }

  lemma {:induction false} AllRunsFinish(b: Bracket, s: Net, run: seq<int>, t: Net)
    requires WellFormed(b) && Typed(b, s) && Path(b, s, run, t) && Final(b, t)
    ensures EveryRunEnds(b, s, |run|, t)
  {
    forall other, u | Path(b, s, other, u)
      ensures |other| <= |run| && ReachesIn(b, u, |run| - |other|, t) && (NothingMoves(b, u) ==> u == t)
    {
      var rest := EveryRunFinishes(b, s, run, t, other, u);
    }
  }
}
