/** Whole tournaments of the network, for any bracket and any solution of its fights: every run
    ends with the same champion. */
module Championship {
  import opened Battle
  import opened Network
  import opened Confluence
  import opened Relays
  import opened Rounds
  import opened Schedule
  import opened Tokens

  /** Every loser that is handed on goes from the left half of the bracket to the right. */
  ghost predicate Halved(b: Bracket) {
    forall a {:trigger SourceOf(b, a)} :: SourceOf(b, a) >= 0 ==>
      InSub(b, Kid(b, 0, 1), a) && InSub(b, Kid(b, 0, 0), SourceOf(b, a))
  }

  /** Where a process begins: a real player with its status from the file, an agent before mkfifo,
      a battle before its first read. */
  function Begin(b: Bracket, e: Entries, n: int): Local {
    if IsAgent(b, n) then Opening else Start(b, e, n)
  }

  function Initial(b: Bracket, e: Entries): Net {
    Net(seq(|b.nodes|, n => Begin(b, e, n)), map[])
  }

  lemma {:induction false} InitialTyped(b: Bracket, e: Entries)
    requires WellFormed(b)
    ensures Typed(b, Initial(b, e)) && Tokened(b, Initial(b, e))
  {
    var s := Initial(b, e);
    forall n {:trigger s.loc[n]} | 0 <= n < |s.loc| ensures LocalOk(b, n, s.loc[n]) { NodeIsOk(b, n); }
    forall n | 0 < n < |b.nodes| ensures Token(b, s, n) {
      NodeIsOk(b, n);
      assert Loc(s, Dad(b, n)) == Begin(b, e, Dad(b, n));
      NodeIsOk(b, Dad(b, n));
    }
  }

  // One run that finishes

  /** The first k processes have opened their FIFOs. */
  function Opened(b: Bracket, e: Entries, k: nat): Net {
    Net(seq(|b.nodes|, n => if n < k then Start(b, e, n) else Begin(b, e, n)), map[])
  }

  lemma {:induction false} OpenNext(b: Bracket, e: Entries, k: nat)
    requires WellFormed(b) && k < |b.nodes|
    ensures Reaches(b, Opened(b, e, k), Opened(b, e, k + 1))
  {
    var s, t := Opened(b, e, k), Opened(b, e, k + 1);
    NodeIsOk(b, k);
    if IsAgent(b, k) {
      OneStep(b, s, k);
      assert Do(b, s, k).loc == t.loc;
    } else {
      assert s.loc == t.loc;
      ReachesSelf(b, s);
    }
  }

  lemma {:induction false} OpenAll(b: Bracket, e: Entries, k: nat)
    requires WellFormed(b) && k <= |b.nodes|
    ensures Reaches(b, Initial(b, e), Opened(b, e, k))
  {
    if k == 0 {
      assert Opened(b, e, 0).loc == Initial(b, e).loc;
      ReachesSelf(b, Initial(b, e));
    } else {
      OpenAll(b, e, k - 1);
      OpenNext(b, e, k - 1);
      Then(b, Initial(b, e), Opened(b, e, k - 1), Opened(b, e, k));
    }
  }

  lemma {:induction false} HalvedApart(b: Bracket)
    requires WellFormed(b) && Halved(b)
    ensures Apart(b, Kid(b, 0, 0)) && Apart(b, Kid(b, 0, 1))
  {
    NodeIsOk(b, 0);
  }

  /** The left half has been played: the right half can begin. */
  lemma {:induction false} RightHalf(b: Bracket, e: Entries, s: Net, t: Net)
    requires WellFormed(b) && Halved(b) && s == Opened(b, e, |b.nodes|)
    requires SameOutside(b, s, t, Kid(b, 0, 0)) && FifosAfter(b, e, s, t, Kid(b, 0, 0))
    ensures Unplayed(b, e, t, Kid(b, 0, 1))
  {
    NodeIsOk(b, 0);
    var k0, k1 := Kid(b, 0, 0), Kid(b, 0, 1);
    forall m {:trigger NotBegun(b, e, t, m)} | InSub(b, k1, m) ensures NotBegun(b, e, t, m) {
      assert Loc(t, m) == Loc(s, m) == Start(b, e, m);
      assert Get(t, Fifo(m)) == Get(s, Fifo(m)) + Gift(b, e, k0, m);
    }
  }

  lemma {:induction false} LeftHalf(b: Bracket, e: Entries, s: Net)
    requires WellFormed(b) && Halved(b) && s == Opened(b, e, |b.nodes|)
    ensures Unplayed(b, e, s, Kid(b, 0, 0)) && NoneOpening(s)
  {
    NodeIsOk(b, 0);
    forall m {:trigger NotBegun(b, e, s, m)} | InSub(b, Kid(b, 0, 0), m) ensures NotBegun(b, e, s, m) {
      assert Loc(s, m) == Start(b, e, m);
    }
  }

  /** Both halves have been played. */
  lemma {:induction false} BothHalves(b: Bracket, e: Entries) returns (t: Net)
    requires WellFormed(b) && Solved(b, e) && Halved(b)
    ensures Reaches(b, Initial(b, e), t) && |t.loc| == |b.nodes| && NoneOpening(t)
    ensures Played(b, e, t, Kid(b, 0, 0)) && Played(b, e, t, Kid(b, 0, 1))
    ensures Loc(t, 0) == Gather(0, Two(BLANK, BLANK)) && Get(t, Out) == []
    ensures forall a {:trigger Get(t, Fifo(a))} :: Get(t, Fifo(a)) == []
  {
    var s := Opened(b, e, |b.nodes|);
    OpenAll(b, e, |b.nodes|);
    LeftHalf(b, e, s);
    HalvedApart(b);
    NodeIsOk(b, 0);
    var k0, k1 := Kid(b, 0, 0), Kid(b, 0, 1);
    NodeIsOk(b, k0);
    NodeIsOk(b, k1);
    var s1 := PlaySubtree(b, e, s, k0);
    KeepsOpen(b, s, s1);
    RightHalf(b, e, s, s1);
    t := PlaySubtree(b, e, s1, k1);
    KeepsOpen(b, s1, t);
    BothPlayed(b, e, s, s1, t, 0);
    Then(b, s, s1, t);
    Then(b, Initial(b, e), s, t);
    assert Loc(s, 0) == Start(b, e, 0);
    EmptyFifos(b, e, s, s1, t);
  }

  lemma {:induction false} EmptyFifos(b: Bracket, e: Entries, s: Net, s1: Net, t: Net)
    requires WellFormed(b) && Halved(b) && s.ch == map[]
    requires FifosAfter(b, e, s, s1, Kid(b, 0, 0)) && FifosAfter(b, e, s1, t, Kid(b, 0, 1))
    ensures forall a {:trigger Get(t, Fifo(a))} :: Get(t, Fifo(a)) == []
  {
    NodeIsOk(b, 0);
    var k0, k1 := Kid(b, 0, 0), Kid(b, 0, 1);
    forall a {:trigger Get(t, Fifo(a))} ensures Get(t, Fifo(a)) == [] {
      assert Get(s1, Fifo(a)) == if InSub(b, k0, a) then [] else Get(s, Fifo(a)) + Gift(b, e, k0, a);
      assert Get(t, Fifo(a)) == if InSub(b, k1, a) then [] else Get(s1, Fifo(a)) + Gift(b, e, k1, a);
    }
  }

  /** What A prints. */
  function Champion(b: Bracket, e: Entries): Status { Pick(Outcome(b, e, 0), Won(b, e, 0)) }

  lemma {:induction false} OneRunFinishes(b: Bracket, e: Entries) returns (run: seq<int>, t: Net)
    requires WellFormed(b) && Solved(b, e) && Halved(b)
    ensures Path(b, Initial(b, e), run, t) && Final(b, t) && Get(t, Out) == [Champion(b, e)]
  {
    NodeIsOk(b, 0);
    OutcomeDecided(b, e, 0);
    var w := Won(b, e, 0);
    var fw, fl := EntryOf(e, Kid(b, 0, w)), EntryOf(e, Kid(b, 0, 1 - w));
    var s := BothHalves(b, e);
    var s1 := FightItOut(b, e, s, 0);
    KeepsOpen(b, s, s1);
    t := FinalEnds(b, s1, Outcome(b, e, 0), w, fw.leaf, fw.origin, fl.leaf, fl.origin);
    Then(b, Initial(b, e), s, s1);
    Then(b, Initial(b, e), s1, t);
    run := SomeRun(b, Initial(b, e), t);
    AllAreGone(b, t);
  }

  lemma {:induction false} AllAreGone(b: Bracket, t: Net)
    requires WellFormed(b) && AllGone(b, t, 0) && |t.loc| == |b.nodes|
    ensures forall n :: 0 <= n < |t.loc| ==> t.loc[n].Gone?
  {
    NodeIsOk(b, 0);
    forall n | 0 <= n < |t.loc| ensures t.loc[n].Gone? { assert Loc(t, n).Gone?; }
  }

  // Every run

  /** All interleavings have one and the same end, and the same number of steps to it: there every
      process is gone and the champion has been announced. No run is longer, and from every state
      that any of them reaches the end can be reached; nothing is stuck before. */
  lemma {:induction false} EveryRunCrowns(b: Bracket, e: Entries) returns (n: nat, t: Net)
    requires WellFormed(b) && Solved(b, e) && Halved(b)
    ensures EveryRunEnds(b, Initial(b, e), n, t) && Get(t, Out) == [Champion(b, e)]
  {
    InitialTyped(b, e);
    var run;
    run, t := OneRunFinishes(b, e);
    n := |run|;
    AllRunsFinish(b, Initial(b, e), run, t);
  }

  /** In every state of every run a pair of pipes holds at most one status, and every agent has
      been handed at most one; at the end each agent has been handed exactly one. */
  lemma {:induction false} EveryRunBounded(b: Bracket, e: Entries, run: seq<int>, u: Net, a: int)
    requires WellFormed(b) && Solved(b, e) && Halved(b) && Path(b, Initial(b, e), run, u) && 0 < a < |b.nodes|
    ensures |Get(u, Up(a))| + |Get(u, Down(a))| <= 1
    ensures HandedTo(u, a) <= 1
    ensures Final(b, u) ==> HandedTo(u, a) == 1
  {
    InitialTyped(b, e);
    OneStatusPerPipe(b, Initial(b, e), run, u, a);
    var n, t := EveryRunCrowns(b, e);
    var rest :| |rest| == n - |run| && Path(b, u, rest, t);
    PathTyped(b, Initial(b, e), run, u);
    HandedOnPath(b, u, rest, t, a);
    assert Get(t, Fifo(a)) == [];
  }

  lemma {:induction false} PathTyped(b: Bracket, s: Net, run: seq<int>, t: Net)
    requires WellFormed(b) && Typed(b, s) && Path(b, s, run, t)
    ensures Typed(b, t)
    decreases run
  {
    if run != [] {
      StaysTyped(b, s, run[0]);
      PathTyped(b, Do(b, s, run[0]), run[1..], t);
    }
  }
}
