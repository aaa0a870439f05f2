/** Between a process and its parent there is always exactly one token: a status in one of their
    two pipes, or the turn of one of the two. */
module Tokens {
  import opened Network
  import opened Confluence

  /** The child is not waiting for its parent. */
  function ChildHolds(l: Local): int { if l.Hear? || l.RelayDown? then 0 else 1 }

  predicate Same(i: int, j: int) { (i == 0) == (j == 0) }

  /** The parent has read the status of child i and not yet answered. */
  function ParentHolds(l: Local, i: int): int {
    match l
    case Gather(j, _) => if j != 0 && i == 0 then 1 else 0
    case Reply(j, _) => if j == 0 || i != 0 then 1 else 0
    case Collect(j, _) => if j != 0 && i == 0 then 1 else 0
    case RelaySend(win, _) => if Same(win, i) then 1 else 0
    case RelayDown(win) => if Same(win, i) then 1 else 0
    case RelayGive(win, _) => if Same(win, i) then 1 else 0
    case _ => 0
  }

  function Side(b: Bracket, n: int): int { if Kid(b, Dad(b, n), 0) == n then 0 else 1 }

  predicate Token(b: Bracket, s: Net, n: int) {
    |Get(s, Up(n))| + |Get(s, Down(n))| + ChildHolds(Loc(s, n)) + ParentHolds(Loc(s, Dad(b, n)), Side(b, n)) == 1
  }

  ghost predicate Tokened(b: Bracket, s: Net) {
    forall n :: 0 < n < |b.nodes| ==> Token(b, s, n)
  }

  /** A process that is neither n nor its parent touches none of it. */
  lemma {:induction false} FarStep(b: Bracket, s: Net, p: int, n: int)
    requires WellFormed(b) && Typed(b, s) && Enabled(b, s, p) && 0 < n < |b.nodes| && Token(b, s, n)
    requires p != n && p != Dad(b, n)
    ensures Token(b, Do(b, s, p), n)
  {
    OwnEnds(b, p, s.loc[p]);
  }

  lemma {:induction false} ChildStep(b: Bracket, s: Net, n: int)
    requires WellFormed(b) && Typed(b, s) && Enabled(b, s, n) && 0 < n < |b.nodes| && Token(b, s, n)
    ensures Token(b, Do(b, s, n), n)
  {
    OwnEnds(b, n, s.loc[n]);
    NodeIsOk(b, n);
    assert LocalOk(b, n, s.loc[n]);
    var l := s.loc[n];
    if IsBattle(b, n) {
      assert Kid(b, n, 0) != n && Kid(b, n, 1) != n;
    }
  }

  lemma {:induction false} ParentStep(b: Bracket, s: Net, p: int, n: int)
    requires WellFormed(b) && Typed(b, s) && Enabled(b, s, p) && 0 < n < |b.nodes| && Token(b, s, n)
    requires p == Dad(b, n)
    ensures Token(b, Do(b, s, p), n)
  {
    NodeIsOk(b, n);
    NodeIsOk(b, p);
    assert LocalOk(b, p, s.loc[p]);
    assert Kid(b, p, Side(b, n)) == n && Kid(b, p, 1 - Side(b, n)) != n;
  }

  lemma {:induction false} StepTokens(b: Bracket, s: Net, p: int)
    requires WellFormed(b) && Typed(b, s) && Enabled(b, s, p) && Tokened(b, s)
    ensures Tokened(b, Do(b, s, p))
  {
    forall n | 0 < n < |b.nodes| ensures Token(b, Do(b, s, p), n) {
      assert Token(b, s, n);
      if p == n {
        ChildStep(b, s, n);
      } else if p == Dad(b, n) {
        ParentStep(b, s, p, n);
      } else {
        FarStep(b, s, p, n);
      }
    }
  }

  /** In every state of every run each pair of pipes between a process and its parent holds at
      most one status. */
  lemma {:induction false} OneStatusPerPipe(b: Bracket, s: Net, run: seq<int>, t: Net, n: int)
    requires WellFormed(b) && Typed(b, s) && Tokened(b, s) && Path(b, s, run, t) && 0 < n < |b.nodes|
    ensures |Get(t, Up(n))| + |Get(t, Down(n))| <= 1
    decreases run
  {
    if run == [] {
      assert Token(b, s, n);
    } else {
      StepTokens(b, s, run[0]);
      StaysTyped(b, s, run[0]);
      OneStatusPerPipe(b, Do(b, s, run[0]), run[1..], t, n);
    }
  }
}
