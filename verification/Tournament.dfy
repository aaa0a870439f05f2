/** The tournament as a plain function of the eight players, battle after battle, and what double
    elimination promises of it. */
module Tournament {
  import opened Battle
  import opened Schedule

  /** A winner, recovered, and a loser, restored. */
  datatype Result = Result(winner: Fighter, loser: Fighter)

  /** attr_table. */
  function GroundOf(letter: char): Attribute {
    match letter
    case 'A' => FIRE
    case 'B' => GRASS
    case 'C' => WATER
    case 'D' => WATER
    case 'E' => FIRE
    case 'F' => FIRE
    case 'G' => FIRE
    case 'H' => GRASS
    case 'I' => WATER
    case 'J' => GRASS
    case 'K' => GRASS
    case 'L' => GRASS
    case 'M' => FIRE
    case 'N' => WATER
    case _ => FIRE
  }

  /** The battle `letter` between a and b. */
  function Contest(letter: char, a: Fighter, b: Fighter): Result {
    var two := Two(a.st.(current_battle_id := letter), b.st.(current_battle_id := letter));
    var f := if Fit(two.s0) && Fit(two.s1) then Fight(GroundOf(letter), two) else two;
    var winner := Fighter(Recovered(f.s0, a.origin), a.origin, a.leaf);
    var winner' := Fighter(Recovered(f.s1, b.origin), b.origin, b.leaf);
    var loser := Fighter(Restored(f.s0, a.origin), a.origin, a.leaf);
    var loser' := Fighter(Restored(f.s1, b.origin), b.origin, b.leaf);
    if Winner(f) == 0 then Result(winner, loser') else Result(winner', loser)
  }

  /** The eight players as read from the file. */
  predicate Eight(p: seq<Status>) {
    |p| == 8 && forall i :: 0 <= i < 8 ==> Fit(p[i]) && p[i].real_player_id == i
  }

  /** A real player at its leaf. */
  function Player(p: seq<Status>, i: nat, leaf: int): Fighter
    requires |p| == 8 && i < 8
  {
    Fighter(p[i], p[i].HP, leaf)
  }

  /** A loser who goes on as an agent. */
  function Agent(loser: Fighter, leaf: int): Fighter { Fighter(loser.st, loser.st.HP, leaf) }

  /** The results of all battles. */
  datatype Board = Board(g: Result, h: Result, i: Result, j: Result, d: Result, e: Result, b: Result,
                         m: Result, n: Result, k: Result, l: Result, f: Result, c: Result, a: Result)

  /** The tournament: the winners' bracket, the losers' bracket and the final. */
  function Results(p: seq<Status>): Board
    requires |p| == 8
  {
    var g := Contest('G', Player(p, 0, 4), Player(p, 1, 5));
    var h := Contest('H', Player(p, 2, 7), Player(p, 3, 8));
    var i := Contest('I', Player(p, 4, 11), Player(p, 5, 12));
    var j := Contest('J', Player(p, 6, 14), Player(p, 7, 15));
    var d := Contest('D', g.winner, h.winner);
    var e := Contest('E', i.winner, j.winner);
    var b := Contest('B', d.winner, e.winner);
    var m := Contest('M', Agent(g.loser, 20), Agent(i.loser, 21));
    var n := Contest('N', Agent(h.loser, 25), Agent(j.loser, 26));
    var k := Contest('K', m.winner, Agent(d.loser, 22));
    var l := Contest('L', n.winner, Agent(e.loser, 27));
    var f := Contest('F', k.winner, l.winner);
    var c := Contest('C', f.winner, Agent(b.loser, 28));
    Board(g, h, i, j, d, e, b, m, n, k, l, f, c, Contest('A', b.winner, c.winner))
  }

  // What one battle does

  predicate Sound(f: Fighter) { Fit(f.st) && f.st.HP <= f.origin }

  function Id(f: Fighter): int { f.st.real_player_id }

  function Is(f: Fighter, x: int): int { if Id(f) == x then 1 else 0 }

  /** The winner goes on recovered within its first points, the loser restored; one of the two is
      the one, the other the other. */
  lemma {:induction false} ContestSound(letter: char, a: Fighter, b: Fighter)
    requires Sound(a) && Sound(b)
    ensures var r := Contest(letter, a, b);
      && Sound(r.winner) && Sound(r.loser) && r.loser.st.HP == r.loser.origin
      && ( || (Id(r.winner) == Id(a) && Id(r.loser) == Id(b) && r.winner.origin == a.origin && r.loser.origin == b.origin
               && r.winner.leaf == a.leaf && r.loser.leaf == b.leaf)
           || (Id(r.winner) == Id(b) && Id(r.loser) == Id(a) && r.winner.origin == b.origin && r.loser.origin == a.origin
               && r.winner.leaf == b.leaf && r.loser.leaf == a.leaf))
  {
    var two := Two(a.st.(current_battle_id := letter), b.st.(current_battle_id := letter));
    FightEnds(GroundOf(letter), two);
    var f := Fight(GroundOf(letter), two);
    if f.s0.HP > 0 { RecoveryFit(f.s0, a.origin); } else { RecoveryFit(f.s1, b.origin); }
  }

  /** The same as a count: whoever enters a battle leaves it once, as winner or as loser. */
  predicate Counts(r: Result, a: Fighter, b: Fighter, x: int) {
    Is(r.winner, x) + Is(r.loser, x) == Is(a, x) + Is(b, x)
  }

  ghost predicate Fair(r: Result, a: Fighter, b: Fighter) {
    && Sound(r.winner) && Sound(r.loser) && r.loser.st.HP == r.loser.origin
    && (r.winner.leaf == a.leaf || r.winner.leaf == b.leaf) && (r.loser.leaf == a.leaf || r.loser.leaf == b.leaf)
    && forall x :: Counts(r, a, b, x)
  }

  lemma {:induction false} ContestFair(letter: char, a: Fighter, b: Fighter)
    requires Sound(a) && Sound(b)
    ensures Fair(Contest(letter, a, b), a, b)
  {
    ContestSound(letter, a, b);
  }

  // Double elimination

  /** The combatants of a battle, by its letter. */
  function Combatants(p: seq<Status>, t: Board, letter: char): (Fighter, Fighter)
    requires |p| == 8
  {
    match letter
    case 'A' => (t.b.winner, t.c.winner)
    case 'B' => (t.d.winner, t.e.winner)
    case 'C' => (t.f.winner, Agent(t.b.loser, 28))
    case 'D' => (t.g.winner, t.h.winner)
    case 'E' => (t.i.winner, t.j.winner)
    case 'F' => (t.k.winner, t.l.winner)
    case 'G' => (Player(p, 0, 4), Player(p, 1, 5))
    case 'H' => (Player(p, 2, 7), Player(p, 3, 8))
    case 'I' => (Player(p, 4, 11), Player(p, 5, 12))
    case 'J' => (Player(p, 6, 14), Player(p, 7, 15))
    case 'K' => (t.m.winner, Agent(t.d.loser, 22))
    case 'L' => (t.n.winner, Agent(t.e.loser, 27))
    case 'M' => (Agent(t.g.loser, 20), Agent(t.i.loser, 21))
    case _ => (Agent(t.h.loser, 25), Agent(t.j.loser, 26))
  }

  function ResultOf(t: Board, letter: char): Result {
    match letter
    case 'A' => t.a
    case 'B' => t.b
    case 'C' => t.c
    case 'D' => t.d
    case 'E' => t.e
    case 'F' => t.f
    case 'G' => t.g
    case 'H' => t.h
    case 'I' => t.i
    case 'J' => t.j
    case 'K' => t.k
    case 'L' => t.l
    case 'M' => t.m
    case _ => t.n
  }

  /** Every result follows from the combatants of its battle. */
  ghost predicate FairAt(p: seq<Status>, t: Board, letter: char)
    requires |p| == 8
  {
    Fair(ResultOf(t, letter), Combatants(p, t, letter).0, Combatants(p, t, letter).1)
  }

  ghost predicate FairBoard(p: seq<Status>, t: Board) {
    |p| == 8 && forall letter :: 'A' <= letter <= 'N' ==> FairAt(p, t, letter)
  }

  /** The result is that of the battle between its combatants. */
  predicate Contested(p: seq<Status>, t: Board, letter: char)
    requires |p| == 8
  {
    ResultOf(t, letter) == Contest(letter, Combatants(p, t, letter).0, Combatants(p, t, letter).1)
  }

  /** Every result is that of its battle. */
  ghost predicate Wired(p: seq<Status>, t: Board)
    requires |p| == 8
  {
    forall letter :: 'A' <= letter <= 'N' ==> Contested(p, t, letter)
  }

  /** The plain tournament gives such a board. */
  lemma {:induction false} ResultsWired(p: seq<Status>)
    requires |p| == 8
    ensures Wired(p, Results(p))
  {
  }

  lemma {:induction false} FairBattle(p: seq<Status>, t: Board, letter: char)
    requires |p| == 8 && Wired(p, t) && 'A' <= letter <= 'N'
    requires Sound(Combatants(p, t, letter).0) && Sound(Combatants(p, t, letter).1)
    ensures FairAt(p, t, letter)
  {
    assert Contested(p, t, letter);
    ContestFair(letter, Combatants(p, t, letter).0, Combatants(p, t, letter).1);
  }

  lemma {:induction false} WiredFair(p: seq<Status>, t: Board)
    requires Eight(p) && Wired(p, t)
    ensures FairBoard(p, t)
  {
    FairBattle(p, t, 'G');
    FairBattle(p, t, 'H');
    FairBattle(p, t, 'I');
    FairBattle(p, t, 'J');
    FairBattle(p, t, 'D');
    FairBattle(p, t, 'E');
    FairBattle(p, t, 'B');
    FairBattle(p, t, 'M');
    FairBattle(p, t, 'N');
    FairBattle(p, t, 'K');
    FairBattle(p, t, 'L');
    FairBattle(p, t, 'F');
    FairBattle(p, t, 'C');
    FairBattle(p, t, 'A');
  }

  /** Battles lost by player x. */
  function WinnersLosses(t: Board, x: int): int {
    Is(t.g.loser, x) + Is(t.h.loser, x) + Is(t.i.loser, x) + Is(t.j.loser, x)
    + Is(t.d.loser, x) + Is(t.e.loser, x) + Is(t.b.loser, x)
  }

  function LosersLosses(t: Board, x: int): int {
    Is(t.m.loser, x) + Is(t.n.loser, x) + Is(t.k.loser, x) + Is(t.l.loser, x) + Is(t.f.loser, x) + Is(t.c.loser, x)
  }

  function Losses(t: Board, x: int): int { WinnersLosses(t, x) + LosersLosses(t, x) + Is(t.a.loser, x) }

  /** In the winners' bracket everybody but its winner loses exactly once. */
  lemma {:induction false} WinnersCount(p: seq<Status>, t: Board, x: int)
    requires Eight(p) && FairBoard(p, t)
    ensures WinnersLosses(t, x) == (if 0 <= x < 8 then 1 else 0) - Is(t.b.winner, x)
  {
    assert FairAt(p, t, 'G') && FairAt(p, t, 'H') && FairAt(p, t, 'I') && FairAt(p, t, 'J');
    assert FairAt(p, t, 'D') && FairAt(p, t, 'E') && FairAt(p, t, 'B');
    assert Counts(t.g, Player(p, 0, 4), Player(p, 1, 5), x) && Counts(t.h, Player(p, 2, 7), Player(p, 3, 8), x);
    assert Counts(t.i, Player(p, 4, 11), Player(p, 5, 12), x) && Counts(t.j, Player(p, 6, 14), Player(p, 7, 15), x);
    assert Counts(t.d, t.g.winner, t.h.winner, x) && Counts(t.e, t.i.winner, t.j.winner, x);
    assert Counts(t.b, t.d.winner, t.e.winner, x);
  }

  /** In the losers' bracket everybody who has lost once loses a second time, but for its winner. */
  lemma {:induction false} LosersCount(p: seq<Status>, t: Board, x: int)
    requires FairBoard(p, t)
    ensures LosersLosses(t, x) == WinnersLosses(t, x) - Is(t.c.winner, x)
  {
    assert FairAt(p, t, 'M') && FairAt(p, t, 'N') && FairAt(p, t, 'K') && FairAt(p, t, 'L');
    assert FairAt(p, t, 'F') && FairAt(p, t, 'C');
    assert Counts(t.m, Agent(t.g.loser, 20), Agent(t.i.loser, 21), x);
    assert Counts(t.n, Agent(t.h.loser, 25), Agent(t.j.loser, 26), x);
    assert Counts(t.k, t.m.winner, Agent(t.d.loser, 22), x) && Counts(t.l, t.n.winner, Agent(t.e.loser, 27), x);
    assert Counts(t.f, t.k.winner, t.l.winner, x) && Counts(t.c, t.f.winner, Agent(t.b.loser, 28), x);
  }

  /** For all points, attacks and attributes: every player loses twice, except that the winner of
      the winners' bracket is spared one loss and the champion is spared one. */
  lemma {:induction false} DoubleElimination(p: seq<Status>, t: Board, x: int)
    requires Eight(p) && Wired(p, t) && 0 <= x < 8
    ensures Losses(t, x) == 2 - Is(t.b.winner, x) - Is(t.a.winner, x)
  {
    WiredFair(p, t);
    SparedLosses(p, t, x);
  }

  lemma {:induction false} SparedLosses(p: seq<Status>, t: Board, x: int)
    requires Eight(p) && FairBoard(p, t) && 0 <= x < 8
    ensures Losses(t, x) == 2 - Is(t.b.winner, x) - Is(t.a.winner, x)
  {
    WinnersCount(p, t, x);
    LosersCount(p, t, x);
    assert FairAt(p, t, 'A');
    assert Counts(t.a, t.b.winner, t.c.winner, x);
  }

  /** The winners of both brackets and the champion are real players. */
  lemma {:induction false} WinnersIds(p: seq<Status>, t: Board)
    requires Eight(p) && FairBoard(p, t)
    ensures 0 <= Id(t.b.winner) < 8 && 0 <= Id(t.a.winner) < 8
  {
    WinnersCount(p, t, Id(t.b.winner));
    WinnersCount(p, t, Id(t.c.winner));
    LosersCount(p, t, Id(t.c.winner));
    assert FairAt(p, t, 'A');
    assert Counts(t.a, t.b.winner, t.c.winner, Id(t.a.winner));
  }

  /** Battles lost by the players below n. */
  function LossesBelow(t: Board, n: nat): int {
    if n == 0 then 0 else LossesBelow(t, n - 1) + Losses(t, n - 1)
  }

  lemma {:induction false} LossesUpTo(p: seq<Status>, t: Board, n: nat)
    requires Eight(p) && FairBoard(p, t) && n <= 8 && Id(t.a.winner) >= 0 && Id(t.b.winner) >= 0
    ensures LossesBelow(t, n)
      == 2 * n - (if Id(t.b.winner) < n then 1 else 0) - (if Id(t.a.winner) < n then 1 else 0)
  {
    if n > 0 {
      LossesUpTo(p, t, n - 1);
      SparedLosses(p, t, n - 1);
    }
  }

  /** There are fourteen losses in all; the champion has at most one, and nobody more than two. */
  lemma {:induction false} LossesInAll(p: seq<Status>, t: Board)
    requires Eight(p) && Wired(p, t)
    ensures LossesBelow(t, 8) == 14
    ensures 0 <= Losses(t, Id(t.a.winner)) <= 1
    ensures forall x :: 0 <= x < 8 ==> 0 <= Losses(t, x) <= 2
  {
    WiredFair(p, t);
    WinnersIds(p, t);
    LossesUpTo(p, t, 8);
    SparedLosses(p, t, Id(t.a.winner));
    forall x | 0 <= x < 8 ensures 0 <= Losses(t, x) <= 2 { SparedLosses(p, t, x); }
  }

  /** Nobody ever meets itself, not even as an agent. */
  lemma {:induction false} CombatantsDiffer(p: seq<Status>, t: Board, letter: char)
    requires Eight(p) && Wired(p, t) && 'A' <= letter <= 'N'
    ensures Id(Combatants(p, t, letter).0) != Id(Combatants(p, t, letter).1)
  {
    WiredFair(p, t);
    var x := Id(Combatants(p, t, letter).0);
    assert FairAt(p, t, letter);
    assert Counts(ResultOf(t, letter), Combatants(p, t, letter).0, Combatants(p, t, letter).1, x);
    if letter in "BDEGHIJ" { WinnersOnce(p, t, letter, x); } else { LosersOnce(p, t, letter, x); }
  }

  /** Whoever enters a battle of the winners' bracket is there once. */
  lemma {:induction false} WinnersOnce(p: seq<Status>, t: Board, letter: char, x: int)
    requires Eight(p) && FairBoard(p, t) && letter in "BDEGHIJ"
    ensures Is(Combatants(p, t, letter).0, x) + Is(Combatants(p, t, letter).1, x) <= 1
  {
    WinnersCount(p, t, x);
    assert FairAt(p, t, 'G') && FairAt(p, t, 'H') && FairAt(p, t, 'I') && FairAt(p, t, 'J');
    assert FairAt(p, t, 'D') && FairAt(p, t, 'E') && FairAt(p, t, 'B');
    assert Counts(t.g, Player(p, 0, 4), Player(p, 1, 5), x) && Counts(t.h, Player(p, 2, 7), Player(p, 3, 8), x);
    assert Counts(t.i, Player(p, 4, 11), Player(p, 5, 12), x) && Counts(t.j, Player(p, 6, 14), Player(p, 7, 15), x);
    assert Counts(t.d, t.g.winner, t.h.winner, x) && Counts(t.e, t.i.winner, t.j.winner, x);
    assert Counts(t.b, t.d.winner, t.e.winner, x);
  }

  lemma {:induction false} LosersOnce(p: seq<Status>, t: Board, letter: char, x: int)
    requires Eight(p) && FairBoard(p, t) && letter in "ACFKLMN"
    ensures Is(Combatants(p, t, letter).0, x) + Is(Combatants(p, t, letter).1, x) <= 1
  {
    WinnersCount(p, t, x);
    LosersCount(p, t, x);
    assert FairAt(p, t, 'M') && FairAt(p, t, 'N') && FairAt(p, t, 'K') && FairAt(p, t, 'L');
    assert FairAt(p, t, 'F') && FairAt(p, t, 'C');
    assert Counts(t.m, Agent(t.g.loser, 20), Agent(t.i.loser, 21), x);
    assert Counts(t.n, Agent(t.h.loser, 25), Agent(t.j.loser, 26), x);
    assert Counts(t.k, t.m.winner, Agent(t.d.loser, 22), x) && Counts(t.l, t.n.winner, Agent(t.e.loser, 27), x);
    assert Counts(t.f, t.k.winner, t.l.winner, x) && Counts(t.c, t.f.winner, Agent(t.b.loser, 28), x);
  }
}
