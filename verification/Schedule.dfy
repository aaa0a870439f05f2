/** A tournament of the network played battle by battle: one run that finishes, for any bracket
    and any solution of its fights. */
module Schedule {
  import opened Battle
  import opened Network
  import opened Relays
  import opened Rounds

  // What each process sends up first

  /** A status, the points its player started this bracket with, and the player's process. */
  datatype Fighter = Fighter(st: Status, origin: int, leaf: int)

  type Entries = map<int, Fighter>

  const BLANK := Status(0, 0, 0, FIRE, '-', 0)

  function EntryOf(e: Entries, n: int): Fighter { if n in e then e[n] else Fighter(BLANK, 0, -1) }

  /** The statuses that battle n reads, marked as its own. */
  function FirstTwo(b: Bracket, e: Entries, n: int): Two {
    Two(EntryOf(e, Kid(b, n, 0)).st.(current_battle_id := Letter(b, n)),
        EntryOf(e, Kid(b, n, 1)).st.(current_battle_id := Letter(b, n)))
  }

  function Outcome(b: Bracket, e: Entries, n: int): Two {
    var two := FirstTwo(b, e, n);
    if Fit(two.s0) && Fit(two.s1) then Fight(Ground(b, n), two) else two
  }

  function Won(b: Bracket, e: Entries, n: int): int { Winner(Outcome(b, e, n)) }

  function WinnerOf(b: Bracket, e: Entries, n: int): Fighter {
    var w := Won(b, e, n);
    var k := EntryOf(e, Kid(b, n, w));
    Fighter(Recovered(Pick(Outcome(b, e, n), w), k.origin), k.origin, k.leaf)
  }

  /** The status that the loser of battle n hands over, and the process that does it. */
  function LoserOf(b: Bracket, e: Entries, n: int): Fighter {
    var l := 1 - Won(b, e, n);
    var k := EntryOf(e, Kid(b, n, l));
    Fighter(Restored(Pick(Outcome(b, e, n), l), k.origin), k.origin, k.leaf)
  }

  predicate RealPlayer(b: Bracket, leaf: int) { NodeAt(b, leaf).PlayerNode? && NodeAt(b, leaf).id <= 7 }

  /** The entry of n follows from those below it and, for an agent, from its source. */
  predicate EntryOk(b: Bracket, e: Entries, n: int) {
    var f := EntryOf(e, n);
    && Fit(f.st) && f.st.HP <= f.origin
    && if IsBattle(b, n) then
         && f == WinnerOf(b, e, n)
         && (n > 0 ==> (RealPlayer(b, LoserOf(b, e, n).leaf) <==> Letter(b, n) in b.agent))
       else
         && f.leaf == n && f.origin == f.st.HP
         && (SourceOf(b, n) >= 0 ==> f.st == LoserOf(b, e, SourceOf(b, n)).st)
  }

  /** */
  ghost predicate Solved(b: Bracket, e: Entries) {
    forall n :: InTree(b, n) ==> EntryOk(b, e, n)
  }

  lemma {:induction false} EntryIsOk(b: Bracket, e: Entries, n: int)
    requires Solved(b, e) && InTree(b, n)
    ensures EntryOk(b, e, n)
  {
  }

  lemma {:induction false} OutcomeDecided(b: Bracket, e: Entries, n: int)
    requires WellFormed(b) && Solved(b, e) && InTree(b, n) && IsBattle(b, n)
    ensures var two, f := FirstTwo(b, e, n), Outcome(b, e, n);
      && Fit(two.s0) && Fit(two.s1) && f == Fight(Ground(b, n), two) && Decided(f)
      && f.s0.current_battle_id == f.s1.current_battle_id == Letter(b, n)
      && Worn(two.s0, f.s0) && Worn(two.s1, f.s1)
  {
    NodeIsOk(b, n);
    EntryIsOk(b, e, Kid(b, n, 0));
    EntryIsOk(b, e, Kid(b, n, 1));
    FightEnds(Ground(b, n), FirstTwo(b, e, n));
  }

  // The start

  predicate IsAgent(b: Bracket, n: int) { SourceOf(b, n) >= 0 }

  function Start(b: Bracket, e: Entries, n: int): Local {
    if IsBattle(b, n) then Gather(0, Two(BLANK, BLANK))
    else if IsAgent(b, n) then Listening
    else Speak(EntryOf(e, n).st, EntryOf(e, n).origin)
  }

  predicate NotBegun(b: Bracket, e: Entries, s: Net, m: int) {
    && Loc(s, m) == Start(b, e, m) && Get(s, Up(m)) == [] && Get(s, Down(m)) == []
    && Get(s, Fifo(m)) == if IsAgent(b, m) then [EntryOf(e, m).st] else []
  }

  /** The subtree of n has not begun, and its agents have been handed their statuses. */
  ghost predicate Unplayed(b: Bracket, e: Entries, s: Net, n: int) {
    forall m {:trigger NotBegun(b, e, s, m)} :: InSub(b, n, m) ==> NotBegun(b, e, s, m)
  }

  /** No agent of the subtree of n waits for a loser of the same subtree. */
  ghost predicate Apart(b: Bracket, n: int) {
    forall a {:trigger SourceOf(b, a)} :: InSub(b, n, a) ==> !InSub(b, n, SourceOf(b, a))
  }

  /** No agent of d waits for a loser of c. */
  ghost predicate NoneFrom(b: Bracket, d: int, c: int) {
    forall a {:trigger SourceOf(b, a)} :: InSub(b, d, a) ==> !InSub(b, c, SourceOf(b, a))
  }

  lemma {:induction false} ApartKids(b: Bracket, n: int)
    requires NodeOk(b, n) && IsBattle(b, n) && Apart(b, n)
    ensures Apart(b, Kid(b, n, 0)) && Apart(b, Kid(b, n, 1)) && NoneFrom(b, Kid(b, n, 1), Kid(b, n, 0))
  {
  }

  function Gift(b: Bracket, e: Entries, n: int, a: int): seq<Status> {
    if SourceOf(b, a) >= 0 && InSub(b, n, SourceOf(b, a)) then [EntryOf(e, a).st] else []
  }

  /** The agents of the subtree have taken their statuses, and its losers have handed theirs on. */
  ghost predicate FifosAfter(b: Bracket, e: Entries, s: Net, t: Net, n: int) {
    forall a {:trigger Get(t, Fifo(a))} ::
      Get(t, Fifo(a)) == if InSub(b, n, a) then [] else Get(s, Fifo(a)) + Gift(b, e, n, a)
  }

  /** The subtree of n has sent its winner up and waits. */
  ghost predicate Played(b: Bracket, e: Entries, s: Net, n: int) {
    Idle(b, s, n, EntryOf(e, n).leaf, EntryOf(e, n).origin) && Get(s, Up(n)) == [EntryOf(e, n).st] && Get(s, Down(n)) == []
  }

  // Leaves

  lemma {:induction false} PlayLeaf(b: Bracket, e: Entries, s: Net, n: int) returns (t: Net)
    requires WellFormed(b) && Solved(b, e) && |s.loc| == |b.nodes| && InTree(b, n) && !IsBattle(b, n)
    requires Unplayed(b, e, s, n)
    ensures Reaches(b, s, t) && |t.loc| == |s.loc| && SameOutside(b, s, t, n)
    ensures Played(b, e, t, n) && FifosAfter(b, e, s, t, n)
  {
    NodeIsOk(b, n);
    EntryIsOk(b, e, n);
    var f := EntryOf(e, n);
    assert NotBegun(b, e, s, n);
    LeafGivesNothing(b, e, n);
    if IsAgent(b, n) {
      var s1 := RecvStep(b, s, n, Fifo(n), f.st);
      t := SendStep(b, s1, n, Up(n), f.st);
      Then(b, s, s1, t);
    } else {
      t := SendStep(b, s, n, Up(n), f.st);
    }
  }

  lemma {:induction false} LeafGivesNothing(b: Bracket, e: Entries, n: int)
    requires WellFormed(b) && InTree(b, n) && !IsBattle(b, n)
    ensures forall a {:trigger Gift(b, e, n, a)} :: Gift(b, e, n, a) == []
  {
    NodeIsOk(b, n);
    forall a {:trigger Gift(b, e, n, a)} ensures Gift(b, e, n, a) == [] {
      if SourceOf(b, a) == n { NodeIsOk(b, a); }
    }
  }

  // Battles

  /** Both winners from below are read and the first round is played. */
  lemma {:induction false} GatherBoth(b: Bracket, e: Entries, s: Net, n: int) returns (t: Net)
    requires WellFormed(b) && |s.loc| == |b.nodes| && InTree(b, n) && IsBattle(b, n)
    requires Loc(s, n) == Gather(0, Two(BLANK, BLANK))
    requires Played(b, e, s, Kid(b, n, 0)) && Played(b, e, s, Kid(b, n, 1))
    ensures Reaches(b, s, t) && |t.loc| == |s.loc| && SameFifos(s, t) && SameOutside(b, s, t, n)
    ensures Get(t, Up(n)) == Get(s, Up(n)) && Get(t, Down(n)) == Get(s, Down(n))
    ensures Loc(t, n) == Reply(0, Round(Ground(b, n), FirstTwo(b, e, n)))
    ensures var f0, f1 := EntryOf(e, Kid(b, n, 0)), EntryOf(e, Kid(b, n, 1));
      Ready(b, t, Kid(b, n, 0), f0.leaf, f0.origin) && Ready(b, t, Kid(b, n, 1), f1.leaf, f1.origin)
  {
    var f0, f1 := EntryOf(e, Kid(b, n, 0)), EntryOf(e, Kid(b, n, 1));
    t := RecvBoth(b, s, n, f0.st, f1.st, f0.leaf, f0.origin, f1.leaf, f1.origin);
  }

  /** From the winners below to the last statuses, written to both sides. */
  lemma {:induction false} FightItOut(b: Bracket, e: Entries, s: Net, n: int) returns (t: Net)
    requires WellFormed(b) && Solved(b, e) && |s.loc| == |b.nodes| && InTree(b, n) && IsBattle(b, n)
    requires Loc(s, n) == Gather(0, Two(BLANK, BLANK))
    requires Played(b, e, s, Kid(b, n, 0)) && Played(b, e, s, Kid(b, n, 1))
    ensures Reaches(b, s, t) && |t.loc| == |s.loc| && SameFifos(s, t) && SameOutside(b, s, t, n)
    ensures Get(t, Up(n)) == Get(s, Up(n)) && Get(t, Down(n)) == Get(s, Down(n))
    ensures var f := Outcome(b, e, n); Loc(t, n) == Await(Winner(f), Pick(f, Winner(f)))
    ensures var f0, f1 := EntryOf(e, Kid(b, n, 0)), EntryOf(e, Kid(b, n, 1));
      Idle(b, t, Kid(b, n, 0), f0.leaf, f0.origin) && Idle(b, t, Kid(b, n, 1), f1.leaf, f1.origin)
    ensures Get(t, Up(Kid(b, n, 0))) == [] && Get(t, Up(Kid(b, n, 1))) == []
    ensures var f := Outcome(b, e, n);
      Get(t, Down(Kid(b, n, 0))) == [f.s0] && Get(t, Down(Kid(b, n, 1))) == [f.s1]
  {
    OutcomeDecided(b, e, n);
    var f0, f1 := EntryOf(e, Kid(b, n, 0)), EntryOf(e, Kid(b, n, 1));
    var s1 := GatherBoth(b, e, s, n);
    var s2 := AllRounds(b, s1, n, FirstTwo(b, e, n), f0.leaf, f0.origin, f1.leaf, f1.origin);
    t := SendBoth(b, s2, n, Outcome(b, e, n), f0.leaf, f0.origin, f1.leaf, f1.origin);
    Then(b, s, s1, s2);
    Then(b, s, s2, t);
    OutsideThen(b, s, s1, s2, n);
    OutsideThen(b, s, s2, t, n);
  }

  /** A whole battle other than the final. */
  lemma {:induction false} PlayBattle(b: Bracket, e: Entries, s: Net, n: int) returns (t: Net)
    requires WellFormed(b) && Solved(b, e) && |s.loc| == |b.nodes| && 0 < n < |b.nodes| && IsBattle(b, n)
    requires NoneOpening(s) && Loc(s, n) == Gather(0, Two(BLANK, BLANK)) && Get(s, Up(n)) == Get(s, Down(n)) == []
    requires Played(b, e, s, Kid(b, n, 0)) && Played(b, e, s, Kid(b, n, 1))
    ensures Reaches(b, s, t) && |t.loc| == |s.loc| && SameOutside(b, s, t, n) && Played(b, e, t, n)
    ensures forall a {:trigger Get(t, Fifo(a))} ::
      Get(t, Fifo(a)) == Get(s, Fifo(a)) + if SourceOf(b, a) == n then [EntryOf(e, a).st] else []
  {
    NodeIsOk(b, n);
    EntryIsOk(b, e, n);
    OutcomeDecided(b, e, n);
    var f, w := Outcome(b, e, n), Won(b, e, n);
    var fw, fl := EntryOf(e, Kid(b, n, w)), EntryOf(e, Kid(b, n, 1 - w));
    var s1 := FightItOut(b, e, s, n);
    KeepsOpen(b, s, s1);
    t := BattleEnds(b, s1, n, f, w, fw.leaf, fw.origin, fl.leaf, fl.origin);
    Then(b, s, s1, t);
    OutsideThen(b, s, s1, t, n);
    forall a {:trigger Get(t, Fifo(a))}
      ensures Get(t, Fifo(a)) == Get(s, Fifo(a)) + if SourceOf(b, a) == n then [EntryOf(e, a).st] else []
    {
      HandsToAgent(b, e, n, a);
    }
  }

  /** The loser of battle n hands its status to the agent whose source n is, if there is one. */
  lemma {:induction false} HandsToAgent(b: Bracket, e: Entries, n: int, a: int)
    requires WellFormed(b) && Solved(b, e) && 0 < n < |b.nodes| && IsBattle(b, n)
    ensures var l := Pick(Outcome(b, e, n), 1 - Won(b, e, n)); var f := LoserOf(b, e, n);
      && (Hands(b, f.leaf, l) && a == AgentOf(b, l.current_battle_id) <==> SourceOf(b, a) == n)
      && (SourceOf(b, a) == n ==> EntryOf(e, a).st == f.st)
  {
    NodeIsOk(b, n);
    EntryIsOk(b, e, n);
    OutcomeDecided(b, e, n);
    if SourceOf(b, a) == n {
      NodeIsOk(b, a);
      EntryIsOk(b, e, a);
    }
  }

  // Subtrees

  lemma {:induction false} StillUnplayed(b: Bracket, e: Entries, s: Net, t: Net, n: int, c: int, d: int)
    requires WellFormed(b) && InTree(b, n) && IsBattle(b, n) && c == Kid(b, n, 0) && d == Kid(b, n, 1)
    requires Unplayed(b, e, s, d) && SameOutside(b, s, t, c) && FifosAfter(b, e, s, t, c)
    requires NoneFrom(b, d, c)
    ensures Unplayed(b, e, t, d)
  {
    NodeIsOk(b, n);
    NodeIsOk(b, c);
    NodeIsOk(b, d);
    forall m {:trigger NotBegun(b, e, t, m)} | InSub(b, d, m) ensures NotBegun(b, e, t, m) {
      assert NotBegun(b, e, s, m);
      assert !InSub(b, c, m) && !InSub(b, c, SourceOf(b, m));
      assert Get(t, Fifo(m)) == Get(s, Fifo(m)) + Gift(b, e, c, m);
    }
  }

  /** Every subtree but the whole plays itself to the end: its winner goes up, its losers' statuses
      go to their agents, and nothing else changes. */
  lemma {:induction false} PlaySubtree(b: Bracket, e: Entries, s: Net, n: int) returns (t: Net)
    requires WellFormed(b) && Solved(b, e) && |s.loc| == |b.nodes| && 0 < n < |b.nodes|
    requires NoneOpening(s) && Unplayed(b, e, s, n) && Apart(b, n)
    ensures Reaches(b, s, t) && |t.loc| == |s.loc| && SameOutside(b, s, t, n)
    ensures Played(b, e, t, n) && FifosAfter(b, e, s, t, n)
    decreases |b.nodes| - n
  {
    if IsBattle(b, n) {
      NodeIsOk(b, n);
      var k0, k1 := Kid(b, n, 0), Kid(b, n, 1);
      NodeIsOk(b, k0);
      NodeIsOk(b, k1);
      assert NotBegun(b, e, s, n);
      ApartKids(b, n);
      var s1 := PlaySubtree(b, e, s, k0);
      KeepsOpen(b, s, s1);
      StillUnplayed(b, e, s, s1, n, k0, k1);
      var s2 := PlaySubtree(b, e, s1, k1);
      KeepsOpen(b, s1, s2);
      BothPlayed(b, e, s, s1, s2, n);
      t := PlayBattle(b, e, s2, n);
      Then(b, s, s1, s2);
      Then(b, s, s2, t);
      OutsideThen(b, s, s1, s2, n);
      OutsideThen(b, s, s2, t, n);
      SumOfFifos(b, e, s, s1, s2, t, n);
    } else {
      t := PlayLeaf(b, e, s, n);
    }
  }

  lemma {:induction false} BothPlayed(b: Bracket, e: Entries, s: Net, s1: Net, s2: Net, n: int)
    requires WellFormed(b) && InTree(b, n) && IsBattle(b, n)
    requires SameOutside(b, s, s1, Kid(b, n, 0)) && Played(b, e, s1, Kid(b, n, 0))
    requires SameOutside(b, s1, s2, Kid(b, n, 1)) && Played(b, e, s2, Kid(b, n, 1))
    ensures Played(b, e, s2, Kid(b, n, 0)) && SameOutside(b, s, s1, n) && SameOutside(b, s1, s2, n)
    ensures Loc(s2, n) == Loc(s, n) && Get(s2, Up(n)) == Get(s, Up(n)) && Get(s2, Down(n)) == Get(s, Down(n))
  {
    NodeIsOk(b, n);
    var k0, k1 := Kid(b, n, 0), Kid(b, n, 1);
    OtherSide(b, s, s1, n, k0, k1);
    OtherSide(b, s1, s2, n, k1, k0);
    IdleFrame(b, s1, s2, k0, EntryOf(e, k0).leaf, EntryOf(e, k0).origin);
  }

  lemma {:induction false} SumOfFifos(b: Bracket, e: Entries, s: Net, s1: Net, s2: Net, t: Net, n: int)
    requires WellFormed(b) && 0 < n < |b.nodes| && IsBattle(b, n) && Apart(b, n) && Unplayed(b, e, s, n)
    requires FifosAfter(b, e, s, s1, Kid(b, n, 0)) && FifosAfter(b, e, s1, s2, Kid(b, n, 1))
    requires forall a {:trigger Get(t, Fifo(a))} ::
      Get(t, Fifo(a)) == Get(s2, Fifo(a)) + if SourceOf(b, a) == n then [EntryOf(e, a).st] else []
    ensures FifosAfter(b, e, s, t, n)
  {
    forall a {:trigger Get(t, Fifo(a))}
      ensures Get(t, Fifo(a)) == if InSub(b, n, a) then [] else Get(s, Fifo(a)) + Gift(b, e, n, a)
    {
      var q, q1, q2, q3 := Get(s, Fifo(a)), Get(s1, Fifo(a)), Get(s2, Fifo(a)), Get(t, Fifo(a));
      assert InSub(b, n, a) ==> !InSub(b, n, SourceOf(b, a));
      assert InSub(b, n, a) ==> NotBegun(b, e, s, a);
      OneFifo(b, e, n, a, q, q1, q2, q3);
    }
  }

  lemma {:induction false} OneFifo(b: Bracket, e: Entries, n: int, a: int, q: seq<Status>, q1: seq<Status>,
                                   q2: seq<Status>, q3: seq<Status>)
    requires WellFormed(b) && 0 < n < |b.nodes| && IsBattle(b, n)
    requires InSub(b, n, a) ==> !InSub(b, n, SourceOf(b, a)) && (!IsAgent(b, a) ==> q == [])
    requires q1 == if InSub(b, Kid(b, n, 0), a) then [] else q + Gift(b, e, Kid(b, n, 0), a)
    requires q2 == if InSub(b, Kid(b, n, 1), a) then [] else q1 + Gift(b, e, Kid(b, n, 1), a)
    requires q3 == q2 + if SourceOf(b, a) == n then [EntryOf(e, a).st] else []
    ensures q3 == if InSub(b, n, a) then [] else q + Gift(b, e, n, a)
  {
    NodeIsOk(b, n);
    NodeIsOk(b, Kid(b, n, 0));
    NodeIsOk(b, Kid(b, n, 1));
  }
}
