/** A battle of the network whose two sides are ready: its rounds over the pipes, and its end. */
module Rounds {
  import opened Battle
  import opened Network
  import opened Relays

  /** The side of child k is ready: its player waits, and nothing is on the way. */
  ghost predicate Ready(b: Bracket, s: Net, k: int, leaf: int, origin: int) {
    Idle(b, s, k, leaf, origin) && Get(s, Up(k)) == [] && Get(s, Down(k)) == []
  }

  /** A change on one side, or at the battle itself, does not reach the other side. */
  lemma {:induction false} OtherSide(b: Bracket, s: Net, t: Net, n: int, c: int, d: int)
    requires WellFormed(b) && NodeOk(b, n) && IsBattle(b, n) && SameOutside(b, s, t, c)
    requires (c == Kid(b, n, 0) && d == Kid(b, n, 1)) || (c == Kid(b, n, 1) && d == Kid(b, n, 0))
    ensures SameInside(b, s, t, d) && Get(t, Up(d)) == Get(s, Up(d)) && Get(t, Down(d)) == Get(s, Down(d))
    ensures Loc(t, n) == Loc(s, n) && Get(t, Up(n)) == Get(s, Up(n)) && Get(t, Down(n)) == Get(s, Down(n))
    ensures SameOutside(b, s, t, n)
  {
    NodeIsOk(b, c);
    NodeIsOk(b, d);
  }

  /** Both sides of battle n are idle. */
  ghost predicate Sides(b: Bracket, s: Net, n: int, l0: int, o0: int, l1: int, o1: int) {
    Idle(b, s, Kid(b, n, 0), l0, o0) && Idle(b, s, Kid(b, n, 1), l1, o1)
  }

  /** From s to t only battle n and its pipe c to or from a child have changed. */
  ghost predicate KidStep(b: Bracket, s: Net, t: Net, n: int, c: Chan) {
    && |t.loc| == |s.loc| && Reaches(b, s, t) && SameFifos(s, t) && SameOutside(b, s, t, n)
    && (forall x {:trigger Get(t, x)} :: x != c ==> Get(t, x) == Get(s, x))
  }

  lemma {:induction false} KidStepSides(b: Bracket, s: Net, t: Net, n: int, i: int, c: Chan,
                                        l0: int, o0: int, l1: int, o1: int)
    requires WellFormed(b) && InTree(b, n) && IsBattle(b, n) && (i == 0 || i == 1) && Sides(b, s, n, l0, o0, l1, o1)
    requires Only(s, t, n, c) && Reaches(b, s, t) && (c == Up(Kid(b, n, i)) || c == Down(Kid(b, n, i)))
    ensures KidStep(b, s, t, n, c) && Sides(b, t, n, l0, o0, l1, o1)
  {
    NodeIsOk(b, n);
    var k0, k1 := Kid(b, n, 0), Kid(b, n, 1);
    NodeIsOk(b, k0);
    NodeIsOk(b, k1);
    OnlyWithin(b, s, t, n, c);
    OnlyKeepsIdle(b, s, t, n, c, k0, l0, o0);
    OnlyKeepsIdle(b, s, t, n, c, k1, l1, o1);
  }

  lemma {:induction false} KidSteps(b: Bracket, s: Net, s1: Net, t: Net, n: int, c: Chan, c1: Chan)
    requires KidStep(b, s, s1, n, c) && KidStep(b, s1, t, n, c1)
    ensures Reaches(b, s, t) && |t.loc| == |s.loc| && SameFifos(s, t) && SameOutside(b, s, t, n)
  {
    Then(b, s, s1, t);
    OutsideThen(b, s, s1, t, n);
  }

  /** Both statuses are written after a round. */
  lemma {:induction false} SendBoth(b: Bracket, s: Net, n: int, two: Two, l0: int, o0: int, l1: int, o1: int)
    returns (t: Net)
    requires WellFormed(b) && |s.loc| == |b.nodes| && InTree(b, n) && IsBattle(b, n) && Loc(s, n) == Reply(0, two)
    requires Ready(b, s, Kid(b, n, 0), l0, o0) && Ready(b, s, Kid(b, n, 1), l1, o1)
    ensures Reaches(b, s, t) && |t.loc| == |s.loc| && SameFifos(s, t) && SameOutside(b, s, t, n)
    ensures Get(t, Up(n)) == Get(s, Up(n)) && Get(t, Down(n)) == Get(s, Down(n))
    ensures Loc(t, n) == if Over(two) then Await(Winner(two), Pick(two, Winner(two))) else Collect(0, two)
    ensures Idle(b, t, Kid(b, n, 0), l0, o0) && Idle(b, t, Kid(b, n, 1), l1, o1)
    ensures Get(t, Up(Kid(b, n, 0))) == [] && Get(t, Up(Kid(b, n, 1))) == []
    ensures Get(t, Down(Kid(b, n, 0))) == [two.s0] && Get(t, Down(Kid(b, n, 1))) == [two.s1]
  {
    KidsApart(b, n);
    var c0, c1 := Down(Kid(b, n, 0)), Down(Kid(b, n, 1));
    var s1 := SendStep(b, s, n, c0, two.s0);
    KidStepSides(b, s, s1, n, 0, c0, l0, o0, l1, o1);
    t := SendStep(b, s1, n, c1, two.s1);
    KidStepSides(b, s1, t, n, 1, c1, l0, o0, l1, o1);
    KidSteps(b, s, s1, t, n, c0, c1);
  }

  lemma {:induction false} KidsApart(b: Bracket, n: int)
    requires WellFormed(b) && InTree(b, n) && IsBattle(b, n)
    ensures n < Kid(b, n, 0) < Kid(b, n, 1)
  {
    NodeIsOk(b, n);
  }

  /** A battle reads its two children. */
  lemma {:induction false} RecvBoth(b: Bracket, s: Net, n: int, m0: Status, m1: Status, l0: int, o0: int, l1: int, o1: int)
    returns (t: Net)
    requires WellFormed(b) && |s.loc| == |b.nodes| && InTree(b, n) && IsBattle(b, n)
    requires (Loc(s, n).Gather? || Loc(s, n).Collect?) && Loc(s, n).i == 0 && Sides(b, s, n, l0, o0, l1, o1)
    requires Get(s, Up(Kid(b, n, 0))) == [m0] && Get(s, Up(Kid(b, n, 1))) == [m1]
    requires Get(s, Down(Kid(b, n, 0))) == [] && Get(s, Down(Kid(b, n, 1))) == []
    ensures Reaches(b, s, t) && |t.loc| == |s.loc| && SameFifos(s, t) && SameOutside(b, s, t, n)
    ensures Get(t, Up(n)) == Get(s, Up(n)) && Get(t, Down(n)) == Get(s, Down(n))
    ensures Loc(t, n) == Received(b, n, Received(b, n, Loc(s, n), m0), m1)
    ensures Ready(b, t, Kid(b, n, 0), l0, o0) && Ready(b, t, Kid(b, n, 1), l1, o1)
  {
    KidsApart(b, n);
    var c0, c1 := Up(Kid(b, n, 0)), Up(Kid(b, n, 1));
    var s1 := RecvStep(b, s, n, c0, m0);
    KidStepSides(b, s, s1, n, 0, c0, l0, o0, l1, o1);
    t := RecvStep(b, s1, n, c1, m1);
    KidStepSides(b, s1, t, n, 1, c1, l0, o0, l1, o1);
    KidSteps(b, s, s1, t, n, c0, c1);
  }

  /** Both statuses are read for the next round. */
  lemma {:induction false} ReadBoth(b: Bracket, s: Net, n: int, two: Two, l0: int, o0: int, l1: int, o1: int)
    returns (t: Net)
    requires WellFormed(b) && |s.loc| == |b.nodes| && InTree(b, n) && IsBattle(b, n) && Loc(s, n) == Collect(0, two)
    requires Idle(b, s, Kid(b, n, 0), l0, o0) && Idle(b, s, Kid(b, n, 1), l1, o1)
    requires Get(s, Down(Kid(b, n, 0))) == [] && Get(s, Down(Kid(b, n, 1))) == []
    requires Get(s, Up(Kid(b, n, 0))) == [two.s0] && Get(s, Up(Kid(b, n, 1))) == [two.s1]
    ensures Reaches(b, s, t) && |t.loc| == |s.loc| && SameFifos(s, t) && SameOutside(b, s, t, n)
    ensures Get(t, Up(n)) == Get(s, Up(n)) && Get(t, Down(n)) == Get(s, Down(n))
    ensures Loc(t, n) == Reply(0, Round(Ground(b, n), two))
    ensures Ready(b, t, Kid(b, n, 0), l0, o0) && Ready(b, t, Kid(b, n, 1), l1, o1)
  {
    t := RecvBoth(b, s, n, two.s0, two.s1, l0, o0, l1, o1);
    assert Stored(Stored(two, 0, two.s0), 1, two.s1) == two;
  }

  /** One exchange between two rounds: both players get their status and send it back. */
  lemma {:induction false} Exchange(b: Bracket, s: Net, n: int, two: Two, l0: int, o0: int, l1: int, o1: int)
    returns (t: Net)
    requires WellFormed(b) && |s.loc| == |b.nodes| && InTree(b, n) && IsBattle(b, n) && Loc(s, n) == Reply(0, two)
    requires Ready(b, s, Kid(b, n, 0), l0, o0) && Ready(b, s, Kid(b, n, 1), l1, o1) && Fit(two.s0) && Fit(two.s1)
    ensures Reaches(b, s, t) && |t.loc| == |s.loc| && SameFifos(s, t) && SameOutside(b, s, t, n)
    ensures Get(t, Up(n)) == Get(s, Up(n)) && Get(t, Down(n)) == Get(s, Down(n))
    ensures Loc(t, n) == Reply(0, Round(Ground(b, n), two))
    ensures Ready(b, t, Kid(b, n, 0), l0, o0) && Ready(b, t, Kid(b, n, 1), l1, o1)
  {
    NodeIsOk(b, n);
    var k0, k1 := Kid(b, n, 0), Kid(b, n, 1);
    var s1 := SendBoth(b, s, n, two, l0, o0, l1, o1);
    var s2 := Pass(b, s1, k0, l0, o0, two.s0);
    OtherSide(b, s1, s2, n, k0, k1);
    IdleFrame(b, s1, s2, k1, l1, o1);
    var s3 := Pass(b, s2, k1, l1, o1, two.s1);
    OtherSide(b, s2, s3, n, k1, k0);
    IdleFrame(b, s2, s3, k0, l0, o0);
    t := ReadBoth(b, s3, n, two, l0, o0, l1, o1);
    Then(b, s, s1, s2);
    Then(b, s, s2, s3);
    Then(b, s, s3, t);
    OutsideThen(b, s, s1, s2, n);
    OutsideThen(b, s, s2, s3, n);
    OutsideThen(b, s, s3, t, n);
  }

  /** All rounds of a battle: it comes to write the statuses of `Fight`. */
  lemma {:induction false} AllRounds(b: Bracket, s: Net, n: int, two: Two, l0: int, o0: int, l1: int, o1: int)
    returns (t: Net)
    requires WellFormed(b) && |s.loc| == |b.nodes| && InTree(b, n) && IsBattle(b, n)
    requires Fit(two.s0) && Fit(two.s1) && Loc(s, n) == Reply(0, Round(Ground(b, n), two))
    requires Ready(b, s, Kid(b, n, 0), l0, o0) && Ready(b, s, Kid(b, n, 1), l1, o1)
    ensures Reaches(b, s, t) && |t.loc| == |s.loc| && SameFifos(s, t) && SameOutside(b, s, t, n)
    ensures Get(t, Up(n)) == Get(s, Up(n)) && Get(t, Down(n)) == Get(s, Down(n))
    ensures Loc(t, n) == Reply(0, Fight(Ground(b, n), two))
    ensures Ready(b, t, Kid(b, n, 0), l0, o0) && Ready(b, t, Kid(b, n, 1), l1, o1)
    decreases two.s0.HP
  {
    var ground := Ground(b, n);
    var two' := Round(ground, two);
    RoundStep(ground, two);
    if Over(two') {
      t := s;
      ReachesSelf(b, s);
    } else {
      var s1 := Exchange(b, s, n, two', l0, o0, l1, o1);
      t := AllRounds(b, s1, n, two', l0, o0, l1, o1);
      Then(b, s, s1, t);
      OutsideThen(b, s, s1, t, n);
    }
  }

  /** The side of child d exits and hands over; the side of child c does not notice. */
  lemma {:induction false} SideLeaves(b: Bracket, s: Net, n: int, c: int, d: int, v: Status,
                                      lc: int, oc: int, ld: int, od: int)
    returns (t: Net)
    requires WellFormed(b) && |s.loc| == |b.nodes| && InTree(b, n) && IsBattle(b, n) && NoneOpening(s)
    requires (c == Kid(b, n, 0) && d == Kid(b, n, 1)) || (c == Kid(b, n, 1) && d == Kid(b, n, 0))
    requires Idle(b, s, c, lc, oc) && Idle(b, s, d, ld, od) && Get(s, Down(d)) == [v] && IsLast(v) && v.battle_ended_flag == 1
    ensures Reaches(b, s, t) && |t.loc| == |s.loc| && SameOutside(b, s, t, n) && HandedOver(b, s, t, ld, od, v)
    ensures Idle(b, t, c, lc, oc) && AllGone(b, t, d) && Loc(t, d).Gone? && Loc(t, n) == Loc(s, n)
    ensures Get(t, Up(n)) == Get(s, Up(n)) && Get(t, Down(n)) == Get(s, Down(n))
    ensures Get(t, Up(c)) == Get(s, Up(c)) && Get(t, Down(c)) == Get(s, Down(c))
  {
    KidsApart(b, n);
    NodeIsOk(b, n);
    NodeIsOk(b, d);
    t := Dismiss(b, s, d, ld, od, v);
    OtherSide(b, s, t, n, d, c);
    IdleFrame(b, s, t, c, lc, oc);
    assert InSub(b, d, d);
  }

  /** The loser's side exits and hands over; the battle waits for it. */
  lemma {:induction false} LoserLeaves(b: Bracket, s: Net, n: int, two: Two, w: int, lw: int, ow: int, ll: int, ol: int)
    returns (t: Net)
    requires WellFormed(b) && |s.loc| == |b.nodes| && InTree(b, n) && IsBattle(b, n) && NoneOpening(s)
    requires Decided(two) && w == Winner(two) && Loc(s, n) == Await(w, Pick(two, w))
    requires Idle(b, s, Kid(b, n, w), lw, ow) && Idle(b, s, Kid(b, n, 1 - w), ll, ol)
    requires Get(s, Down(Kid(b, n, 1 - w))) == [Pick(two, 1 - w)]
    ensures Reaches(b, s, t) && |t.loc| == |s.loc| && SameOutside(b, s, t, n)
    ensures HandedOver(b, s, t, ll, ol, Pick(two, 1 - w))
    ensures Get(t, Up(n)) == Get(s, Up(n)) && Get(t, Down(n)) == Get(s, Down(n))
    ensures Loc(t, n) == Waited(b, n, Loc(s, n))
    ensures Idle(b, t, Kid(b, n, w), lw, ow) && AllGone(b, t, Kid(b, n, 1 - w))
    ensures Get(t, Up(Kid(b, n, w))) == Get(s, Up(Kid(b, n, w)))
    ensures Get(t, Down(Kid(b, n, w))) == Get(s, Down(Kid(b, n, w)))
  {
    KidsApart(b, n);
    var c, d := Kid(b, n, w), Kid(b, n, 1 - w);
    var s1 := SideLeaves(b, s, n, c, d, Pick(two, 1 - w), lw, ow, ll, ol);
    t := WaitStep(b, s1, n, 1);
    WaitedBeside(b, s1, t, n, c, d, lw, ow);
    Then(b, s, s1, t);
    OutsideThen(b, s, s1, t, n);
  }

  lemma {:induction false} WaitedBeside(b: Bracket, s: Net, t: Net, n: int, c: int, d: int, leaf: int, origin: int)
    requires WellFormed(b) && InTree(b, n) && IsBattle(b, n) && Only(s, t, n, Down(n))
    requires (c == Kid(b, n, 0) && d == Kid(b, n, 1)) || (c == Kid(b, n, 1) && d == Kid(b, n, 0))
    requires Idle(b, s, c, leaf, origin) && AllGone(b, s, d)
    ensures Idle(b, t, c, leaf, origin) && AllGone(b, t, d) && SameOutside(b, s, t, n)
  {
    NodeIsOk(b, n);
    OnlyKeepsIdle(b, s, t, n, Down(n), c, leaf, origin);
    OnlyWithin(b, s, t, n, Down(n));
  }

  /** The end of a battle other than the final: the loser's side has exited, and the winner,
      recovered, is on its way up through a new relay. */
  lemma {:induction false} BattleEnds(b: Bracket, s: Net, n: int, two: Two, w: int, lw: int, ow: int, ll: int, ol: int)
    returns (t: Net)
    requires WellFormed(b) && |s.loc| == |b.nodes| && 0 < n < |b.nodes| && IsBattle(b, n) && NoneOpening(s)
    requires Decided(two) && w == Winner(two) && Loc(s, n) == Await(w, Pick(two, w)) && !IsLast(Pick(two, w))
    requires Idle(b, s, Kid(b, n, w), lw, ow) && Idle(b, s, Kid(b, n, 1 - w), ll, ol)
    requires Get(s, Up(Kid(b, n, w))) == [] && Get(s, Down(Kid(b, n, w))) == [Pick(two, w)]
    requires Get(s, Down(Kid(b, n, 1 - w))) == [Pick(two, 1 - w)] && Get(s, Up(n)) == [] && Get(s, Down(n)) == []
    ensures Reaches(b, s, t) && |t.loc| == |s.loc| && SameOutside(b, s, t, n)
    ensures HandedOver(b, s, t, ll, ol, Pick(two, 1 - w))
    ensures Idle(b, t, n, lw, ow) && Get(t, Down(n)) == []
    ensures Get(t, Up(n)) == [Recovered(Pick(two, w), ow)]
  {
    NodeIsOk(b, n);
    var c, d := Kid(b, n, w), Kid(b, n, 1 - w);
    var s1 := LoserLeaves(b, s, n, two, w, lw, ow, ll, ol);
    var s2 := Pass(b, s1, c, lw, ow, Pick(two, w));
    OtherSide(b, s1, s2, n, c, d);
    assert AllGone(b, s2, d);
    t := RelayUpward(b, s2, n, w, lw, ow, Recovered(Pick(two, w), ow));
    Then(b, s, s1, s2);
    Then(b, s, s2, t);
    OutsideThen(b, s, s1, s2, n);
    OutsideThen(b, s, s2, t, n);
  }

  /** After the final the winner's side exits too. */
  lemma {:induction false} WinnerLeaves(b: Bracket, s: Net, c: int, d: int, lw: int, ow: int, v: Status) returns (t: Net)
    requires WellFormed(b) && |s.loc| == |b.nodes| && NoneOpening(s) && Get(s, Out) == []
    requires (c == Kid(b, 0, 0) && d == Kid(b, 0, 1)) || (c == Kid(b, 0, 1) && d == Kid(b, 0, 0))
    requires Loc(s, 0) == LastWait(v) && Idle(b, s, c, lw, ow) && AllGone(b, s, d) && Get(s, Down(c)) == [v]
    requires v.HP > 0 && v.battle_ended_flag == 1 && v.current_battle_id == 'A'
    ensures Reaches(b, s, t) && |t.loc| == |s.loc| && SameFifos(s, t)
    ensures Exited(b, t, 0) == 2 && Loc(t, 0) == LastWait(v) && Get(t, Out) == []
    ensures forall m {:trigger Loc(t, m)} :: 0 < m < End(b, 0) ==> Loc(t, m).Gone?
  {
    NodeIsOk(b, 0);
    t := Dismiss(b, s, c, lw, ow, v);
    OtherSide(b, s, t, 0, c, d);
    BothGone(b, s, t, 0, c, d);
  }

  lemma {:induction false} Crown(b: Bracket, s: Net, v: Status) returns (t: Net)
    requires WellFormed(b) && |s.loc| == |b.nodes| && Get(s, Out) == [] && Loc(s, 0) == LastWait(v)
    requires Exited(b, s, 0) == 2 && forall m {:trigger Loc(s, m)} :: 0 < m < End(b, 0) ==> Loc(s, m).Gone?
    ensures Reaches(b, s, t) && |t.loc| == |s.loc| && SameFifos(s, t) && AllGone(b, t, 0) && Get(t, Out) == [v]
  {
    NodeIsOk(b, 0);
    var s1 := WaitStep(b, s, 0, 2);
    t := SendStep(b, s1, 0, Out, v);
    Then(b, s, s1, t);
  }

  /** The end of the final: everybody exits, and the champion is announced. */
  lemma {:induction false} FinalEnds(b: Bracket, s: Net, two: Two, w: int, lw: int, ow: int, ll: int, ol: int)
    returns (t: Net)
    requires WellFormed(b) && |s.loc| == |b.nodes| && NoneOpening(s) && Get(s, Out) == []
    requires Decided(two) && w == Winner(two) && Loc(s, 0) == Await(w, Pick(two, w))
    requires two.s0.current_battle_id == two.s1.current_battle_id == 'A'
    requires Idle(b, s, Kid(b, 0, w), lw, ow) && Idle(b, s, Kid(b, 0, 1 - w), ll, ol)
    requires Get(s, Down(Kid(b, 0, w))) == [Pick(two, w)] && Get(s, Down(Kid(b, 0, 1 - w))) == [Pick(two, 1 - w)]
    ensures Reaches(b, s, t) && |t.loc| == |s.loc| && SameFifos(s, t) && AllGone(b, t, 0)
    ensures Get(t, Out) == [Pick(two, w)]
  {
    NodeIsOk(b, 0);
    var s1 := LoserLeaves(b, s, 0, two, w, lw, ow, ll, ol);
    KeepsOpen(b, s, s1);
    var s2 := WinnerLeaves(b, s1, Kid(b, 0, w), Kid(b, 0, 1 - w), lw, ow, Pick(two, w));
    t := Crown(b, s2, Pick(two, w));
    Then(b, s, s1, s2);
    Then(b, s, s2, t);
  }
}
