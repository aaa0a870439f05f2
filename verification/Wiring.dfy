/** The bracket of the program, from its tables, and its tournaments. */
module Wiring {
  import opened Battle
  import opened Network
  import opened Confluence
  import opened Schedule
  import opened Championship
  import opened Tournament

  // The tables of battle.c and player.c

  /** parent_table. */
  function ParentName(letter: char): char {
    match letter
    case 'B' => 'A'
    case 'C' => 'A'
    case 'D' => 'B'
    case 'E' => 'B'
    case 'F' => 'C'
    case 'G' => 'D'
    case 'H' => 'D'
    case 'I' => 'E'
    case 'J' => 'E'
    case 'K' => 'F'
    case 'L' => 'F'
    case 'M' => 'K'
    case 'N' => 'L'
    case _ => '?'
  }

  /** battle_num: how many children are battles. */
  function BattleNum(letter: char): int {
    match letter
    case 'A' => 2
    case 'B' => 2
    case 'C' => 1
    case 'D' => 2
    case 'E' => 2
    case 'F' => 2
    case 'K' => 1
    case 'L' => 1
    case _ => 0
  }

  /** child_name: a battle's letter, or 'a' plus a player's number. */
  function ChildName0(letter: char): char {
    match letter
    case 'A' => 'B'
    case 'B' => 'D'
    case 'C' => 'F'
    case 'D' => 'G'
    case 'E' => 'I'
    case 'F' => 'K'
    case 'G' => 'a'
    case 'H' => 'c'
    case 'I' => 'e'
    case 'J' => 'g'
    case 'K' => 'M'
    case 'L' => 'N'
    case 'M' => 'i'
    case 'N' => 'l'
    case _ => '?'
  }

  function ChildName1(letter: char): char {
    match letter
    case 'A' => 'C'
    case 'B' => 'E'
    case 'C' => 'o'
    case 'D' => 'H'
    case 'E' => 'J'
    case 'F' => 'L'
    case 'G' => 'b'
    case 'H' => 'd'
    case 'I' => 'f'
    case 'J' => 'h'
    case 'K' => 'k'
    case 'L' => 'n'
    case 'M' => 'j'
    case 'N' => 'm'
    case _ => '?'
  }

  function WhichAgent(letter: char): int {
    match letter
    case 'G' => 8
    case 'I' => 9
    case 'D' => 10
    case 'H' => 11
    case 'J' => 12
    case 'E' => 13
    case 'B' => 14
    case _ => -1
  }

  function WhichTarget(id: int): char {
    if id == 0 || id == 1 then 'G'
    else if id == 2 || id == 3 then 'H'
    else if id == 4 || id == 5 then 'I'
    else if id == 6 || id == 7 then 'J'
    else if id == 8 || id == 9 then 'M'
    else if id == 10 then 'K'
    else if id == 11 || id == 12 then 'N'
    else if id == 13 then 'L'
    else if id == 14 then 'C'
    else '?'
  }

  /** The tables as the program writes them, entry by entry. */
  lemma {:induction false} TablesAre(i: nat)
    requires i < 14
    ensures var letter := "ABCDEFGHIJKLMN"[i];
      && ParentName(letter) == "?AABBCDDEEFFKL"[i]
      && BattleNum(letter) == [2, 2, 1, 2, 2, 2, 0, 0, 0, 0, 1, 1, 0, 0][i]
      && ChildName0(letter) == "BDFGIKacegMNil"[i] && ChildName1(letter) == "CEoHJLbdfhknjm"[i]
      && GroundOf(letter) == [FIRE, GRASS, WATER][[0, 1, 2, 2, 0, 0, 0, 1, 2, 1, 1, 1, 0, 2][i]]
      && WhichAgent(letter) == [-1, 14, -1, 10, 13, -1, 8, 11, 9, 12, -1, -1, -1, -1][i]
  {
  }

  lemma {:induction false} TargetsAre(id: nat)
    requires id < 15
    ensures WhichTarget(id) == "GGHHIIJJMMKNNLC"[id]
  {
  }

  // The processes, numbered parents first

  function Fighting(letter: char, kid0: int, kid1: int, dad: int, end: int): Node {
    BattleNode(letter, GroundOf(letter), kid0, kid1, dad, end)
  }

  function NodeTable(n: int): Node {
    match n
    case 0 => Fighting('A', 1, 16, -1, 29)
    case 1 => Fighting('B', 2, 9, 0, 16)
    case 2 => Fighting('D', 3, 6, 1, 9)
    case 3 => Fighting('G', 4, 5, 2, 6)
    case 4 => PlayerNode(0, 3, 5)
    case 5 => PlayerNode(1, 3, 6)
    case 6 => Fighting('H', 7, 8, 2, 9)
    case 7 => PlayerNode(2, 6, 8)
    case 8 => PlayerNode(3, 6, 9)
    case 9 => Fighting('E', 10, 13, 1, 16)
    case 10 => Fighting('I', 11, 12, 9, 13)
    case 11 => PlayerNode(4, 10, 12)
    case 12 => PlayerNode(5, 10, 13)
    case 13 => Fighting('J', 14, 15, 9, 16)
    case 14 => PlayerNode(6, 13, 15)
    case 15 => PlayerNode(7, 13, 16)
    case 16 => Fighting('C', 17, 28, 0, 29)
    case 17 => Fighting('F', 18, 23, 16, 28)
    case 18 => Fighting('K', 19, 22, 17, 23)
    case 19 => Fighting('M', 20, 21, 18, 22)
    case 20 => PlayerNode(8, 19, 21)
    case 21 => PlayerNode(9, 19, 22)
    case 22 => PlayerNode(10, 18, 23)
    case 23 => Fighting('L', 24, 27, 17, 28)
    case 24 => Fighting('N', 25, 26, 23, 27)
    case 25 => PlayerNode(11, 24, 26)
    case 26 => PlayerNode(12, 24, 27)
    case 27 => PlayerNode(13, 23, 28)
    case _ => PlayerNode(14, 16, 29)
  }

  function TheBracket(): Bracket {
    Bracket(seq(29, n => NodeTable(n)),
            map['G' := 20, 'I' := 21, 'D' := 22, 'H' := 25, 'J' := 26, 'E' := 27, 'B' := 28],
            map[20 := 3, 21 := 10, 22 := 2, 25 := 6, 26 := 13, 27 := 9, 28 := 1])
  }

  lemma {:induction false} BracketNode(n: int)
    requires 0 <= n < 29
    ensures NodeAt(TheBracket(), n) == NodeTable(n) && InTree(TheBracket(), n) && |TheBracket().nodes| == 29
  {
  }

  /** Process c is what the tables call child i of a battle. */
  predicate ChildNamed(letter: char, i: int, c: Node) {
    var name := if i == 0 then ChildName0(letter) else ChildName1(letter);
    if i < BattleNum(letter) then c.BattleNode? && c.letter == name
    else c.PlayerNode? && c.id == name as int - 'a' as int
  }

  /** The numbering is that of the tables, as regards children. */
  predicate KidsNamed(n: int) {
    match NodeTable(n)
    case BattleNode(letter, ground, kid0, kid1, dad, end) =>
      && ground == GroundOf(letter)
      && ChildNamed(letter, 0, NodeTable(kid0)) && ChildNamed(letter, 1, NodeTable(kid1))
    case PlayerNode(_, _, _) => true
  }

  /** As regards parents, targets and agents. */
  predicate LinksNamed(n: int) {
    match NodeTable(n)
    case BattleNode(letter, ground, kid0, kid1, dad, end) =>
      && (n > 0 ==> NodeTable(dad).BattleNode? && ParentName(letter) == NodeTable(dad).letter)
      && AgentNamed(letter)
    case PlayerNode(id, dad, end) => NodeTable(dad).BattleNode? && WhichTarget(id) == NodeTable(dad).letter
  }

  predicate AgentNamed(letter: char) {
    var a := AgentOf(TheBracket(), letter);
    if WhichAgent(letter) == -1 then a == -1 else NodeTable(a).PlayerNode? && NodeTable(a).id == WhichAgent(letter)
  }

  /** The numbered bracket is the one that the tables describe. */
  lemma {:induction false} TablesAgree(n: int)
    requires 0 <= n < 29
    ensures KidsNamed(n) && LinksNamed(n)
  {
    KidsAgree(n);
    LinksAgree(n);
  }

  lemma {:induction false} KidsAgree(n: int)
    requires 0 <= n < 29
    ensures KidsNamed(n)
  {
  }

  lemma {:induction false} LinksAgree(n: int)
    requires 0 <= n < 29
    ensures LinksNamed(n)
  {
  }

  lemma {:induction false} BracketUp(n: int)
    requires 0 <= n < 29
    ensures UpOk(TheBracket(), n)
  {
  }

  lemma {:induction false} BracketDown(n: int)
    requires 0 <= n < 29
    ensures DownOk(TheBracket(), n)
  {
    if n < 13 { BracketDownLeft(n); } else { BracketDownRight(n); }
  }

  lemma {:induction false} BracketDownLeft(n: int)
    requires 0 <= n < 13
    ensures DownOk(TheBracket(), n)
  {
  }

  lemma {:induction false} BracketDownRight(n: int)
    requires 13 <= n < 29
    ensures DownOk(TheBracket(), n)
  {
  }

  lemma {:induction false} BracketAgents(n: int)
    requires 0 <= n < 29
    ensures AgentsOk(TheBracket(), n)
  {
  }

  lemma {:induction false} BracketWellFormed()
    ensures WellFormed(TheBracket())
  {
    var b := TheBracket();
    forall n | InTree(b, n) ensures NodeOk(b, n) {
      BracketUp(n);
      BracketDown(n);
      BracketAgents(n);
    }
  }

  lemma {:induction false} BracketHalved()
    ensures Halved(TheBracket())
  {
    BracketNode(0);
    BracketNode(1);
    BracketNode(16);
  }

  // The entries

  function EntryTable(p: seq<Status>, t: Board, n: int): Fighter
    requires |p| == 8
  {
    match n
    case 0 => t.a.winner
    case 1 => t.b.winner
    case 2 => t.d.winner
    case 3 => t.g.winner
    case 4 => Player(p, 0, 4)
    case 5 => Player(p, 1, 5)
    case 6 => t.h.winner
    case 7 => Player(p, 2, 7)
    case 8 => Player(p, 3, 8)
    case 9 => t.e.winner
    case 10 => t.i.winner
    case 11 => Player(p, 4, 11)
    case 12 => Player(p, 5, 12)
    case 13 => t.j.winner
    case 14 => Player(p, 6, 14)
    case 15 => Player(p, 7, 15)
    case 16 => t.c.winner
    case 17 => t.f.winner
    case 18 => t.k.winner
    case 19 => t.m.winner
    case 20 => Agent(t.g.loser, 20)
    case 21 => Agent(t.i.loser, 21)
    case 22 => Agent(t.d.loser, 22)
    case 23 => t.l.winner
    case 24 => t.n.winner
    case 25 => Agent(t.h.loser, 25)
    case 26 => Agent(t.j.loser, 26)
    case 27 => Agent(t.e.loser, 27)
    case _ => Agent(t.b.loser, 28)
  }

  /** What every process sends up first, by the board of a tournament. */
  function EntriesOf(p: seq<Status>, t: Board): Entries
    requires |p| == 8
  {
    map n | 0 <= n < 29 :: EntryTable(p, t, n)
  }

  lemma {:induction false} EntriesAt(p: seq<Status>, t: Board, n: int)
    requires |p| == 8 && 0 <= n < 29
    ensures EntryOf(EntriesOf(p, t), n) == EntryTable(p, t, n)
  {
  }

  // The plain tournament solves the network

  lemma {:induction false} BothSound(p: seq<Status>, t: Board, letter: char)
    requires FairBoard(p, t) && 'A' <= letter <= 'N'
    ensures var r := ResultOf(t, letter); Sound(r.winner) && Sound(r.loser) && r.loser.st.HP == r.loser.origin
  {
    assert FairAt(p, t, letter);
  }

  lemma {:induction false} CombatantsSound(p: seq<Status>, t: Board, letter: char)
    requires Eight(p) && FairBoard(p, t) && 'A' <= letter <= 'N'
    ensures Sound(Combatants(p, t, letter).0) && Sound(Combatants(p, t, letter).1)
  {
    match letter
    case 'A' => BothSound(p, t, 'B'); BothSound(p, t, 'C');
    case 'B' => BothSound(p, t, 'D'); BothSound(p, t, 'E');
    case 'C' => BothSound(p, t, 'F'); BothSound(p, t, 'B');
    case 'D' => BothSound(p, t, 'G'); BothSound(p, t, 'H');
    case 'E' => BothSound(p, t, 'I'); BothSound(p, t, 'J');
    case 'F' => BothSound(p, t, 'K'); BothSound(p, t, 'L');
    case 'K' => BothSound(p, t, 'M'); BothSound(p, t, 'D');
    case 'L' => BothSound(p, t, 'N'); BothSound(p, t, 'E');
    case 'M' => BothSound(p, t, 'G'); BothSound(p, t, 'I');
    case 'N' => BothSound(p, t, 'H'); BothSound(p, t, 'J');
    case _ =>
  }

  /** Process n of bracket b is battle `letter`, and its entries are those of board t. */
  ghost predicate Reflects(b: Bracket, e: Entries, p: seq<Status>, t: Board, n: int, letter: char) {
    && |p| == 8 && IsBattle(b, n) && Letter(b, n) == letter && Ground(b, n) == GroundOf(letter)
    && EntryOf(e, Kid(b, n, 0)) == Combatants(p, t, letter).0 && EntryOf(e, Kid(b, n, 1)) == Combatants(p, t, letter).1
    && EntryOf(e, n) == ResultOf(t, letter).winner
  }

  lemma {:induction false} BattleReflects(p: seq<Status>, t: Board, n: int)
    requires |p| == 8 && 0 <= n < 29 && NodeTable(n).BattleNode?
    ensures Reflects(TheBracket(), EntriesOf(p, t), p, t, n, NodeTable(n).letter)
    ensures 'A' <= NodeTable(n).letter <= 'N'
  {
    BracketNode(n);
    EntriesAt(p, t, n);
    EntriesAt(p, t, NodeTable(n).kid0);
    EntriesAt(p, t, NodeTable(n).kid1);
  }

  lemma {:induction false} ResultSolved(b: Bracket, e: Entries, p: seq<Status>, t: Board, n: int, letter: char)
    requires Eight(p) && Wired(p, t) && FairBoard(p, t)
    requires Reflects(b, e, p, t, n, letter) && 'A' <= letter <= 'N'
    ensures LoserOf(b, e, n) == ResultOf(t, letter).loser && WinnerOf(b, e, n) == ResultOf(t, letter).winner
    ensures Sound(EntryOf(e, n))
  {
    CombatantsSound(p, t, letter);
    assert Contested(p, t, letter);
    assert FairAt(p, t, letter);
  }

  /** The leaves at which the winners' bracket is played, and those of the losers'. */
  predicate WinnersLeaf(n: int) { n in {4, 5, 7, 8, 11, 12, 14, 15} }
  predicate LosersLeaf(n: int) { n in {20, 21, 22, 25, 26, 27, 28} }

  lemma {:induction false} SameLeaves(p: seq<Status>, t: Board, letter: char)
    requires FairBoard(p, t) && 'A' <= letter <= 'N'
    ensures var r, a, b := ResultOf(t, letter), Combatants(p, t, letter).0, Combatants(p, t, letter).1;
      && (r.winner.leaf == a.leaf || r.winner.leaf == b.leaf) && (r.loser.leaf == a.leaf || r.loser.leaf == b.leaf)
  {
    assert FairAt(p, t, letter);
  }

  lemma {:induction false} LosersAt(p: seq<Status>, t: Board, letter: char)
    requires FairBoard(p, t) && 'B' <= letter <= 'N'
    ensures var leaf := ResultOf(t, letter).loser.leaf;
      if letter in {'G', 'I', 'D', 'H', 'J', 'E', 'B'} then WinnersLeaf(leaf) else LosersLeaf(leaf)
  {
    SameLeaves(p, t, 'G');
    SameLeaves(p, t, 'H');
    SameLeaves(p, t, 'I');
    SameLeaves(p, t, 'J');
    SameLeaves(p, t, 'D');
    SameLeaves(p, t, 'E');
    SameLeaves(p, t, 'B');
    SameLeaves(p, t, 'M');
    SameLeaves(p, t, 'N');
    SameLeaves(p, t, 'K');
    SameLeaves(p, t, 'L');
    SameLeaves(p, t, 'F');
    SameLeaves(p, t, 'C');
  }

  lemma {:induction false} BattleSolved(p: seq<Status>, t: Board, n: int)
    requires Eight(p) && Wired(p, t) && FairBoard(p, t) && 0 <= n < 29 && NodeTable(n).BattleNode?
    ensures EntryOk(TheBracket(), EntriesOf(p, t), n)
  {
    var b, e, letter := TheBracket(), EntriesOf(p, t), NodeTable(n).letter;
    BracketNode(n);
    BattleReflects(p, t, n);
    ResultSolved(b, e, p, t, n, letter);
    if n > 0 { LoserHands(p, t, n); }
  }

  lemma {:induction false} LoserHands(p: seq<Status>, t: Board, n: int)
    requires FairBoard(p, t) && 0 < n < 29 && NodeTable(n).BattleNode?
    ensures var letter := NodeTable(n).letter;
      'B' <= letter <= 'N' && (RealPlayer(TheBracket(), ResultOf(t, letter).loser.leaf) <==> letter in TheBracket().agent)
  {
    var letter := NodeTable(n).letter;
    LosersAt(p, t, letter);
    LeafKinds(ResultOf(t, letter).loser.leaf);
  }

  lemma {:induction false} LeafKinds(n: int)
    ensures WinnersLeaf(n) ==> RealPlayer(TheBracket(), n)
    ensures LosersLeaf(n) ==> !RealPlayer(TheBracket(), n)
  {
    if 0 <= n < 29 { BracketNode(n); }
  }

  /** An agent's entry is that of the loser it waits for, and a real player's that of the file. */
  lemma {:induction false} LeafEntry(p: seq<Status>, t: Board, n: int)
    requires |p| == 8 && 0 <= n < 29 && NodeTable(n).PlayerNode?
    ensures var from := SourceOf(TheBracket(), n);
      if LosersLeaf(n) then
        && 0 < from < 29 && NodeTable(from).BattleNode? && 'B' <= NodeTable(from).letter <= 'N'
        && EntryTable(p, t, n) == Agent(ResultOf(t, NodeTable(from).letter).loser, n)
      else
        from < 0 && exists i: nat :: i < 8 && EntryTable(p, t, n) == Player(p, i, n)
  {
    BracketNode(n);
    if !LosersLeaf(n) {
      assert EntryTable(p, t, n) == Player(p, NodeTable(n).id, n);
    }
  }

  lemma {:induction false} AgentSolved(b: Bracket, e: Entries, n: int, f: Fighter)
    requires !IsBattle(b, n) && Sound(f) && f.st.HP == f.origin && EntryOf(e, n) == Agent(f, n)
    requires SourceOf(b, n) >= 0 ==> LoserOf(b, e, SourceOf(b, n)) == f
    ensures EntryOk(b, e, n)
  {
  }

  lemma {:induction false} LeafSolved(p: seq<Status>, t: Board, n: int)
    requires Eight(p) && Wired(p, t) && FairBoard(p, t) && 0 <= n < 29 && NodeTable(n).PlayerNode?
    ensures EntryOk(TheBracket(), EntriesOf(p, t), n)
  {
    var b, e := TheBracket(), EntriesOf(p, t);
    BracketNode(n);
    EntriesAt(p, t, n);
    LeafEntry(p, t, n);
    if LosersLeaf(n) {
      var from := SourceOf(b, n);
      var letter := NodeTable(from).letter;
      BattleReflects(p, t, from);
      ResultSolved(b, e, p, t, from, letter);
      assert FairAt(p, t, letter);
      AgentSolved(b, e, n, ResultOf(t, letter).loser);
    } else {
      var i: nat :| i < 8 && EntryTable(p, t, n) == Player(p, i, n);
      AgentSolved(b, e, n, Player(p, i, n));
    }
  }

  /** The board of the plain tournament gives every process its first status. */
  lemma {:induction false} ResultsSolve(p: seq<Status>, t: Board)
    requires Eight(p) && Wired(p, t)
    ensures Solved(TheBracket(), EntriesOf(p, t))
  {
    WiredFair(p, t);
    forall n | InTree(TheBracket(), n) ensures EntryOk(TheBracket(), EntriesOf(p, t), n) {
      if NodeTable(n).BattleNode? { BattleSolved(p, t, n); } else { LeafSolved(p, t, n); }
    }
  }

  // The tournament of the program

  /** The bracket and the plain tournament meet what `EveryRunCrowns` asks for. */
  lemma {:induction false} ProgramSolved(p: seq<Status>, t: Board)
    requires Eight(p) && Wired(p, t)
    ensures WellFormed(TheBracket()) && Halved(TheBracket()) && Solved(TheBracket(), EntriesOf(p, t)) && |TheBracket().nodes| == 29
    ensures Champion(TheBracket(), EntriesOf(p, t)).real_player_id == Id(t.a.winner)
  {
    BracketWellFormed();
    BracketHalved();
    ResultsSolve(p, t);
    WiredFair(p, t);
    PrintedChampion(p, t);
  }

  lemma {:induction false} BoardRuns(p: seq<Status>, t: Board) returns (n: nat, end: Net)
    requires Eight(p) && Wired(p, t)
    ensures EveryRunEnds(TheBracket(), Initial(TheBracket(), EntriesOf(p, t)), n, end)
    ensures |Get(end, Out)| == 1 && Get(end, Out)[0].real_player_id == Id(t.a.winner)
  {
    ProgramSolved(p, t);
    n, end := EveryRunCrowns(TheBracket(), EntriesOf(p, t));
  }

  /** For all fit players: every interleaving of the battles and players comes to one and the same
      end, in the same number of steps, and is not stuck before; there every process has exited and
      A has printed the champion of the plain tournament. */
  lemma {:induction false} EveryTournament(p: seq<Status>) returns (n: nat, end: Net)
    requires Eight(p)
    ensures EveryRunEnds(TheBracket(), Initial(TheBracket(), EntriesOf(p, Results(p))), n, end)
    ensures |Get(end, Out)| == 1 && Get(end, Out)[0].real_player_id == Id(Results(p).a.winner)
  {
    ResultsWired(p);
    n, end := BoardRuns(p, Results(p));
  }

  lemma {:induction false} PrintedChampion(p: seq<Status>, t: Board)
    requires Eight(p) && Wired(p, t) && FairBoard(p, t)
    ensures Champion(TheBracket(), EntriesOf(p, t)).real_player_id == Id(t.a.winner)
  {
    BattleReflects(p, t, 0);
    ResultSolved(TheBracket(), EntriesOf(p, t), p, t, 0, 'A');
  }

  /** In every state of every tournament each pair of pipes holds at most one status and no agent
      has been handed more than one; at the end each agent has been handed exactly one. */
  lemma {:induction false} EveryPipe(p: seq<Status>, t: Board, run: seq<int>, u: Net, n: int)
    requires Eight(p) && Wired(p, t) && Path(TheBracket(), Initial(TheBracket(), EntriesOf(p, t)), run, u) && 0 < n < 29
    ensures |Get(u, Up(n))| + |Get(u, Down(n))| <= 1
    ensures HandedTo(u, n) <= 1
    ensures Final(TheBracket(), u) ==> HandedTo(u, n) == 1
  {
    ProgramSolved(p, t);
    EveryRunBounded(TheBracket(), EntriesOf(p, t), run, u, n);
  }
}
