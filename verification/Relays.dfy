/** What a finished part of the bracket does with a status from above: it carries it unchanged to
    the surviving player and carries the answer back, or ends with that player. */
module Relays {
  import opened Battle
  import opened Network
  import opened Confluence

  // Reaching a state

  /** Some run leads from s to t. */
  ghost predicate Reaches(b: Bracket, s: Net, t: Net) {
    exists run :: Path(b, s, run, t)
  }

  lemma {:induction false} SomeRun(b: Bracket, s: Net, t: Net) returns (run: seq<int>)
    requires Reaches(b, s, t)
    ensures Path(b, s, run, t)
  {
    run :| Path(b, s, run, t);
  }

  lemma {:induction false} ReachesSelf(b: Bracket, s: Net)
    ensures Reaches(b, s, s)
  {
    assert Path(b, s, [], s);
  }

  lemma {:induction false} PathThen(b: Bracket, s: Net, run: seq<int>, t: Net, run': seq<int>, u: Net)
    requires Path(b, s, run, t) && Path(b, t, run', u)
    ensures Path(b, s, run + run', u)
    decreases run
  {
    if run == [] {
      assert run + run' == run';
    } else {
      assert (run + run')[1..] == run[1..] + run';
      PathThen(b, Do(b, s, run[0]), run[1..], t, run', u);
    }
  }

  lemma {:induction false} Then(b: Bracket, s: Net, t: Net, u: Net)
    requires Reaches(b, s, t) && Reaches(b, t, u)
    ensures Reaches(b, s, u)
  {
    var run := SomeRun(b, s, t);
    var run' := SomeRun(b, t, u);
    PathThen(b, s, run, t, run', u);
    assert Path(b, s, run + run', u);
  }

  // Single steps

  /** From s to t only the state of process n and the pipe c have changed. */
  ghost predicate Only(s: Net, t: Net, n: int, c: Chan) {
    && |t.loc| == |s.loc|
    && (forall m {:trigger Loc(t, m)} :: m != n ==> Loc(t, m) == Loc(s, m))
    && (forall x {:trigger Get(t, x)} :: x != c ==> Get(t, x) == Get(s, x))
  }

  lemma {:induction false} OneStep(b: Bracket, s: Net, n: int)
    requires Enabled(b, s, n)
    ensures Reaches(b, s, Do(b, s, n))
  {
    assert [n][1..] == [];
    assert Path(b, Do(b, s, n), [], Do(b, s, n));
    assert Path(b, s, [n], Do(b, s, n));
    assert Path(b, s, [n], Do(b, s, n));
  }

  lemma {:induction false} RecvStep(b: Bracket, s: Net, n: int, c: Chan, m: Status) returns (t: Net)
    requires 0 <= n < |s.loc| && Doing(b, n, Loc(s, n)) == Recv(c) && Get(s, c) == [m]
    ensures Reaches(b, s, t) && Only(s, t, n, c) && Loc(t, n) == Received(b, n, Loc(s, n), m) && Get(t, c) == []
  {
    t := Do(b, s, n);
    OneStep(b, s, n);
  }

  lemma {:induction false} SendStep(b: Bracket, s: Net, n: int, c: Chan, m: Status) returns (t: Net)
    requires 0 <= n < |s.loc| && Doing(b, n, Loc(s, n)) == Send(c, m) && (c.Fifo? ==> !Loc(s, c.n).Opening?)
    ensures Reaches(b, s, t) && Only(s, t, n, c) && Loc(t, n) == Sent(Loc(s, n)) && Get(t, c) == Get(s, c) + [m]
  {
    t := Do(b, s, n);
    OneStep(b, s, n);
  }

  lemma {:induction false} WaitStep(b: Bracket, s: Net, n: int, k: int) returns (t: Net)
    requires 0 <= n < |s.loc| && Doing(b, n, Loc(s, n)) == WaitFor(k) && Exited(b, s, n) >= k
    ensures Reaches(b, s, t) && Only(s, t, n, Down(n)) && Loc(t, n) == Waited(b, n, Loc(s, n))
    ensures forall x :: Get(t, x) == Get(s, x)
  {
    t := Do(b, s, n);
    OneStep(b, s, n);
  }

  // Subtrees

  predicate InSub(b: Bracket, n: int, m: int) { n <= m < End(b, n) }

  /** Outside the subtree of n no process and no pipe has changed; FIFOs are not pipes. */
  ghost predicate SameOutside(b: Bracket, s: Net, t: Net, n: int) {
    && |t.loc| == |s.loc|
    && Get(t, Out) == Get(s, Out)
    && (forall m {:trigger Loc(t, m)} :: !InSub(b, n, m) ==> Loc(t, m) == Loc(s, m))
    && (forall m {:trigger Get(t, Up(m))} :: !InSub(b, n, m) ==> Get(t, Up(m)) == Get(s, Up(m)))
    && (forall m {:trigger Get(t, Down(m))} :: !InSub(b, n, m) ==> Get(t, Down(m)) == Get(s, Down(m)))
  }

  ghost predicate SameFifos(s: Net, t: Net) {
    forall a {:trigger Get(t, Fifo(a))} :: Get(t, Fifo(a)) == Get(s, Fifo(a))
  }

  /** Inside the subtree nothing has changed, but for the pipes of n itself. */
  ghost predicate SameInside(b: Bracket, s: Net, t: Net, n: int) {
    && (forall m {:trigger Loc(t, m)} :: InSub(b, n, m) ==> Loc(t, m) == Loc(s, m))
    && (forall m {:trigger Get(t, Up(m))} :: InSub(b, n, m) && m != n ==> Get(t, Up(m)) == Get(s, Up(m)))
    && (forall m {:trigger Get(t, Down(m))} :: InSub(b, n, m) && m != n ==> Get(t, Down(m)) == Get(s, Down(m)))
  }

  ghost predicate AllGone(b: Bracket, s: Net, n: int) {
    forall m {:trigger Loc(s, m)} :: InSub(b, n, m) ==> Loc(s, m).Gone?
  }

  /** The battles from n down to the player at `leaf` are over and relay; the losers' sides have
      exited; the player, who started with `origin` points, waits for its parent. */
  ghost predicate Idle(b: Bracket, s: Net, n: int, leaf: int, origin: int)
    decreases |b.nodes| - n
  {
    && InTree(b, n)
    && if IsBattle(b, n) then
         && Loc(s, n).RelayDown? && (Loc(s, n).win == 0 || Loc(s, n).win == 1)
         && var c, d := Kid(b, n, Loc(s, n).win), Kid(b, n, 1 - Loc(s, n).win);
         && n < c && Get(s, Up(c)) == [] && Get(s, Down(c)) == []
         && Idle(b, s, c, leaf, origin) && AllGone(b, s, d)
       else n == leaf && Loc(s, n) == Hear(origin)
  }

  lemma {:induction false} IdleFrame(b: Bracket, s: Net, t: Net, n: int, leaf: int, origin: int)
    requires WellFormed(b) && Idle(b, s, n, leaf, origin) && SameInside(b, s, t, n)
    ensures Idle(b, t, n, leaf, origin)
    decreases |b.nodes| - n
  {
    NodeIsOk(b, n);
    if IsBattle(b, n) {
      var c, d := Kid(b, n, Loc(s, n).win), Kid(b, n, 1 - Loc(s, n).win);
      InsideKid(b, s, t, n, c);
      InsideKid(b, s, t, n, d);
      IdleFrame(b, s, t, c, leaf, origin);
      assert Loc(t, n) == Loc(s, n) && Get(t, Up(c)) == [] && Get(t, Down(c)) == [];
    }
  }

  lemma {:induction false} InsideKid(b: Bracket, s: Net, t: Net, n: int, c: int)
    requires NodeOk(b, n) && IsBattle(b, n) && (c == Kid(b, n, 0) || c == Kid(b, n, 1)) && SameInside(b, s, t, n)
    ensures SameInside(b, s, t, c) && InSub(b, n, c)
    ensures AllGone(b, s, c) ==> AllGone(b, t, c)
  {
  }

  lemma {:induction false} OutsideThen(b: Bracket, s: Net, t: Net, u: Net, n: int)
    requires SameOutside(b, s, t, n) && SameOutside(b, t, u, n)
    ensures SameOutside(b, s, u, n)
  {
  }

  /** A step at n on a pipe inside its subtree stays inside. */
  lemma {:induction false} OnlyWithin(b: Bracket, s: Net, t: Net, n: int, c: Chan)
    requires Only(s, t, n, c) && (c.Up? || c.Down?) && InSub(b, n, c.n) && InSub(b, n, n)
    ensures SameOutside(b, s, t, n) && SameFifos(s, t)
  {
  }

  /** A step elsewhere, on a pipe that is not inside the subtree of k, leaves that subtree idle. */
  lemma {:induction false} OnlyKeepsIdle(b: Bracket, s: Net, t: Net, n: int, c: Chan, k: int, leaf: int, origin: int)
    requires WellFormed(b) && Only(s, t, n, c) && Idle(b, s, k, leaf, origin) && !InSub(b, k, n)
    requires (c.Up? || c.Down?) && (c.n == k || !InSub(b, k, c.n))
    ensures Idle(b, t, k, leaf, origin)
  {
    IdleFrame(b, s, t, k, leaf, origin);
  }

  // Relays

  /** What the surviving player answers to a status that does not end it. */
  function Answer(v: Status, origin: int): Status {
    if v.battle_ended_flag == 1 then Recovered(v, origin) else v
  }

  /** The first half of a relay: from the parent to the child. */
  lemma {:induction false} RelayDownward(b: Bracket, s: Net, n: int, leaf: int, origin: int, v: Status)
    returns (t: Net, c: int)
    requires WellFormed(b) && |s.loc| == |b.nodes| && IsBattle(b, n) && Idle(b, s, n, leaf, origin)
    requires Get(s, Down(n)) == [v]
    ensures Reaches(b, s, t) && |t.loc| == |s.loc| && SameFifos(s, t) && SameOutside(b, s, t, n)
    ensures c == Kid(b, n, Loc(s, n).win) && Get(t, Down(c)) == [v] && Get(t, Up(c)) == [] && Get(t, Down(n)) == []
    ensures Get(t, Up(n)) == Get(s, Up(n))
    ensures Loc(t, n) == (if IsLast(v) then LastWait(v) else RelayUp(Loc(s, n).win))
    ensures Idle(b, t, c, leaf, origin) && AllGone(b, t, Kid(b, n, 1 - Loc(s, n).win))
  {
    NodeIsOk(b, n);
    var win := Loc(s, n).win;
    c := Kid(b, n, win);
    var d := Kid(b, n, 1 - win);
    var s1 := RecvStep(b, s, n, Down(n), v);
    OnlyWithin(b, s, s1, n, Down(n));
    OnlyKeepsIdle(b, s, s1, n, Down(n), c, leaf, origin);
    t := SendStep(b, s1, n, Down(c), v);
    OnlyWithin(b, s1, t, n, Down(c));
    OnlyKeepsIdle(b, s1, t, n, Down(c), c, leaf, origin);
    Then(b, s, s1, t);
    OutsideThen(b, s, s1, t, n);
  }

  /** The second half: the answer goes from the child to the parent. */
  lemma {:induction false} RelayUpward(b: Bracket, s: Net, n: int, win: int, leaf: int, origin: int, v: Status)
    returns (t: Net)
    requires WellFormed(b) && |s.loc| == |b.nodes| && InTree(b, n) && IsBattle(b, n)
    requires (win == 0 || win == 1) && Loc(s, n) == RelayUp(win)
    requires var c, d := Kid(b, n, win), Kid(b, n, 1 - win);
      Idle(b, s, c, leaf, origin) && AllGone(b, s, d) && Get(s, Up(c)) == [v] && Get(s, Down(c)) == []
    requires Get(s, Up(n)) == []
    ensures Reaches(b, s, t) && |t.loc| == |s.loc| && SameFifos(s, t) && SameOutside(b, s, t, n)
    ensures Idle(b, t, n, leaf, origin) && Get(t, Up(n)) == [v] && Get(t, Down(n)) == Get(s, Down(n))
  {
    NodeIsOk(b, n);
    var c := Kid(b, n, win);
    var s1 := RecvStep(b, s, n, Up(c), v);
    OnlyWithin(b, s, s1, n, Up(c));
    OnlyKeepsIdle(b, s, s1, n, Up(c), c, leaf, origin);
    t := SendStep(b, s1, n, Up(n), v);
    OnlyWithin(b, s1, t, n, Up(n));
    OnlyKeepsIdle(b, s1, t, n, Up(n), c, leaf, origin);
    Then(b, s, s1, t);
    OutsideThen(b, s, s1, t, n);
  }

  lemma {:induction false} Outer(b: Bracket, s: Net, t: Net, n: int, c: int)
    requires NodeOk(b, n) && IsBattle(b, n) && (c == Kid(b, n, 0) || c == Kid(b, n, 1)) && SameOutside(b, s, t, c)
    ensures SameOutside(b, s, t, n)
  {
  }

  /** Relay transparency: through any number of finished battles a status reaches the surviving
      player unchanged, and the player's answer, the status itself during a battle and the
      recovered one after it, comes back unchanged. Nothing else moves. */
  lemma {:induction false} Pass(b: Bracket, s: Net, n: int, leaf: int, origin: int, v: Status) returns (t: Net)
    requires WellFormed(b) && |s.loc| == |b.nodes| && Idle(b, s, n, leaf, origin)
    requires Get(s, Down(n)) == [v] && Get(s, Up(n)) == [] && !IsLast(v)
    ensures Reaches(b, s, t) && |t.loc| == |s.loc| && SameFifos(s, t) && SameOutside(b, s, t, n)
    ensures Get(t, Down(n)) == [] && Get(t, Up(n)) == [Answer(v, origin)] && Idle(b, t, n, leaf, origin)
    decreases |b.nodes| - n
  {
    NodeIsOk(b, n);
    if IsBattle(b, n) {
      var win := Loc(s, n).win;
      var s1, c := RelayDownward(b, s, n, leaf, origin, v);
      var s2 := Pass(b, s1, c, leaf, origin, v);
      Outer(b, s1, s2, n, c);
      assert Loc(s2, n) == RelayUp(win) && Get(s2, Up(n)) == [] && Get(s2, Down(n)) == [];
      t := RelayUpward(b, s2, n, win, leaf, origin, Answer(v, origin));
      Then(b, s, s1, s2);
      Then(b, s, s2, t);
      OutsideThen(b, s, s1, s2, n);
      OutsideThen(b, s, s2, t, n);
    } else {
      t := PassLeaf(b, s, n, leaf, origin, v);
    }
  }

  /** The surviving player itself. */
  lemma {:induction false} PassLeaf(b: Bracket, s: Net, n: int, leaf: int, origin: int, v: Status) returns (t: Net)
    requires WellFormed(b) && |s.loc| == |b.nodes| && Idle(b, s, n, leaf, origin) && !IsBattle(b, n)
    requires Get(s, Down(n)) == [v] && Get(s, Up(n)) == [] && !IsLast(v)
    ensures Reaches(b, s, t) && |t.loc| == |s.loc| && SameFifos(s, t) && SameOutside(b, s, t, n)
    ensures Get(t, Down(n)) == [] && Get(t, Up(n)) == [Answer(v, origin)] && Idle(b, t, n, leaf, origin)
  {
    NodeIsOk(b, n);
    var s1 := RecvStep(b, s, n, Down(n), v);
    t := SendStep(b, s1, n, Up(n), Answer(v, origin));
    Then(b, s, s1, t);
  }

  // The end of a subtree

  ghost predicate NoneOpening(s: Net) { forall m {:trigger Loc(s, m)} :: !Loc(s, m).Opening? }

  /** A beaten player hands its place to an agent; nobody else does. */
  predicate Hands(b: Bracket, leaf: int, v: Status) {
    v.HP <= 0 && v.current_battle_id != 'A' && NodeAt(b, leaf).PlayerNode? && NodeAt(b, leaf).id <= 7
  }

  /** From s to t the FIFOs have changed by what the player at `leaf` hands over. */
  ghost predicate HandedOver(b: Bracket, s: Net, t: Net, leaf: int, origin: int, v: Status) {
    forall a {:trigger Get(t, Fifo(a))} :: Get(t, Fifo(a)) == Get(s, Fifo(a)) +
      if Hands(b, leaf, v) && a == AgentOf(b, v.current_battle_id) then [Restored(v, origin)] else []
  }

  lemma {:induction false} PathKeepsOpen(b: Bracket, s: Net, run: seq<int>, t: Net)
    requires Path(b, s, run, t) && NoneOpening(s)
    ensures NoneOpening(t)
    decreases run
  {
    if run != [] {
      var s1 := Do(b, s, run[0]);
      forall m {:trigger Loc(s1, m)} ensures !Loc(s1, m).Opening? { assert !Loc(s, m).Opening?; }
      PathKeepsOpen(b, Do(b, s, run[0]), run[1..], t);
    }
  }

  lemma {:induction false} KeepsOpen(b: Bracket, s: Net, t: Net)
    requires Reaches(b, s, t) && NoneOpening(s)
    ensures NoneOpening(t)
  {
    var run := SomeRun(b, s, t);
    PathKeepsOpen(b, s, run, t);
  }

  /** The last status of a player takes its relays with it: all of them exit, and a beaten player
      hands its restored status to the agent of the battle it has lost. */
  lemma {:induction false} Dismiss(b: Bracket, s: Net, n: int, leaf: int, origin: int, v: Status) returns (t: Net)
    requires WellFormed(b) && |s.loc| == |b.nodes| && Idle(b, s, n, leaf, origin) && NoneOpening(s) && n > 0
    requires Get(s, Down(n)) == [v] && IsLast(v) && v.battle_ended_flag == 1
    ensures Reaches(b, s, t) && |t.loc| == |s.loc| && SameOutside(b, s, t, n) && AllGone(b, t, n)
    ensures HandedOver(b, s, t, leaf, origin, v)
    decreases |b.nodes| - n, 1
  {
    NodeIsOk(b, n);
    if IsBattle(b, n) {
      t := DismissBattle(b, s, n, leaf, origin, v);
    } else {
      var s1 := RecvStep(b, s, n, Down(n), v);
      if Hands(b, leaf, v) {
        t := SendStep(b, s1, n, Fifo(AgentOf(b, v.current_battle_id)), Restored(v, origin));
        Then(b, s, s1, t);
      } else {
        t := s1;
      }
    }
  }

  lemma {:induction false} DismissBattle(b: Bracket, s: Net, n: int, leaf: int, origin: int, v: Status) returns (t: Net)
    requires WellFormed(b) && |s.loc| == |b.nodes| && Idle(b, s, n, leaf, origin) && NoneOpening(s) && n > 0
    requires Get(s, Down(n)) == [v] && IsLast(v) && v.battle_ended_flag == 1 && IsBattle(b, n)
    ensures Reaches(b, s, t) && |t.loc| == |s.loc| && SameOutside(b, s, t, n) && AllGone(b, t, n)
    ensures HandedOver(b, s, t, leaf, origin, v)
    decreases |b.nodes| - n, 0
  {
    NodeIsOk(b, n);
    var d := Kid(b, n, 1 - Loc(s, n).win);
    var s1, c := RelayDownward(b, s, n, leaf, origin, v);
    KeepsOpen(b, s, s1);
    var s2 := Dismiss(b, s1, c, leaf, origin, v);
    Outer(b, s1, s2, n, c);
    BothGone(b, s1, s2, n, c, d);
    t := WaitStep(b, s2, n, 2);
    Then(b, s, s1, s2);
    Then(b, s, s2, t);
    OutsideThen(b, s, s1, s2, n);
    OutsideThen(b, s, s2, t, n);
  }

  /** One child's side has exited in t, the other had exited before. */
  lemma {:induction false} BothGone(b: Bracket, s: Net, t: Net, n: int, c: int, d: int)
    requires WellFormed(b) && NodeOk(b, n) && IsBattle(b, n) && SameOutside(b, s, t, c)
    requires (c == Kid(b, n, 0) && d == Kid(b, n, 1)) || (c == Kid(b, n, 1) && d == Kid(b, n, 0))
    requires AllGone(b, s, d) && AllGone(b, t, c)
    ensures AllGone(b, t, d) && Exited(b, t, n) == 2
    ensures forall m {:trigger Loc(t, m)} :: n < m < End(b, n) ==> Loc(t, m).Gone?
  {
    NodeIsOk(b, c);
    NodeIsOk(b, d);
    assert InSub(b, c, c) && InSub(b, d, d);
  }
}
