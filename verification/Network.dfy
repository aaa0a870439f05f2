/** The processes of a tournament and the pipes between them, for any bracket: what each process
    does next, and what one step does to the whole. */
module Network {
  import opened Battle

  /** A process: a battle with two children, or a player at a leaf. `end` is one past its last
      descendant; a subtree is numbered without gaps, parents first. */
  datatype Node =
    | BattleNode(letter: char, ground: Attribute, kid0: int, kid1: int, dad: int, end: int)
    | PlayerNode(id: int, dad: int, end: int)

  /** `agent` is the process that a loser of a battle hands its place to, `source` the battle
      whose loser an agent waits for. */
  datatype Bracket = Bracket(nodes: seq<Node>, agent: map<char, int>, source: map<int, int>)

  function NodeAt(b: Bracket, n: int): Node {
    if 0 <= n < |b.nodes| then b.nodes[n] else PlayerNode(-1, -1, n + 1)
  }

  function Kid(b: Bracket, n: int, i: int): int {
    var d := NodeAt(b, n);
    if d.PlayerNode? then -1 else if i == 0 then d.kid0 else d.kid1
  }

  function Dad(b: Bracket, n: int): int { NodeAt(b, n).dad }

  function End(b: Bracket, n: int): int { NodeAt(b, n).end }

  function Letter(b: Bracket, n: int): char {
    var d := NodeAt(b, n);
    if d.PlayerNode? then '-' else d.letter
  }

  function Ground(b: Bracket, n: int): Attribute {
    var d := NodeAt(b, n);
    if d.PlayerNode? then FIRE else d.ground
  }

  function AgentOf(b: Bracket, letter: char): int { if letter in b.agent then b.agent[letter] else -1 }

  function SourceOf(b: Bracket, a: int): int {
    if 0 <= a < |b.nodes| && a in b.source then b.source[a] else -1
  }

  predicate IsBattle(b: Bracket, n: int) { NodeAt(b, n).BattleNode? }

  predicate InTree(b: Bracket, n: int) { 0 <= n < |b.nodes| }

  /** The numbering is that of a tree whose root alone is called A: seen from a process upward. */
  predicate UpOk(b: Bracket, n: int) {
    && (n == 0 ==> IsBattle(b, n) && End(b, n) == |b.nodes|)
    && (n > 0 ==> 0 <= Dad(b, n) < n && IsBattle(b, Dad(b, n))
                  && (Kid(b, Dad(b, n), 0) == n || Kid(b, Dad(b, n), 1) == n))
  }

  /** And seen downward. */
  predicate DownOk(b: Bracket, n: int) {
    && n < End(b, n) <= |b.nodes|
    && if IsBattle(b, n) then
         var k0, k1 := Kid(b, n, 0), Kid(b, n, 1);
         && k0 == n + 1 && k0 < k1 == End(b, k0) < End(b, k1) == End(b, n)
         && Dad(b, k0) == n && Dad(b, k1) == n && (Letter(b, n) == 'A' <==> n == 0)
       else End(b, n) == n + 1
  }

  /** Agents and sources match. */
  predicate AgentsOk(b: Bracket, n: int) {
    && (SourceOf(b, n) >= 0 ==>
          && IsBattle(b, SourceOf(b, n)) && !IsBattle(b, n)
          && Letter(b, SourceOf(b, n)) in b.agent && AgentOf(b, Letter(b, SourceOf(b, n))) == n)
    && (IsBattle(b, n) && Letter(b, n) in b.agent ==> SourceOf(b, AgentOf(b, Letter(b, n))) == n)
  }

  predicate NodeOk(b: Bracket, n: int) { InTree(b, n) && UpOk(b, n) && DownOk(b, n) && AgentsOk(b, n) }

  /** */
  ghost predicate WellFormed(b: Bracket) {
    && |b.nodes| > 0
    && forall n :: InTree(b, n) ==> NodeOk(b, n)
  }

  lemma {:induction false} NodeIsOk(b: Bracket, n: int)
    requires WellFormed(b) && InTree(b, n)
    ensures NodeOk(b, n)
  {
  }

  // Processes

  /** The pipe from a process to its parent, the pipe from its parent, an agent's FIFO, and the
      root's standard output. */
  datatype Chan = Up(n: int) | Down(n: int) | Fifo(n: int) | Out

  datatype Local =
    // a battle
    | Gather(i: int, two: Two)            // the first statuses
    | Reply(i: int, two: Two)             // after play: writing both back
    | Collect(i: int, two: Two)           // reading both again
    | Await(win: int, st: Status)         // wait(0) after the battle
    | RelayUp(win: int)                   // relay: reading the winner's child
    | RelaySend(win: int, st: Status)     // writing the parent
    | RelayDown(win: int)                 // reading the parent
    | RelayGive(win: int, st: Status)     // writing the child
    | LastWait(st: Status)                // wait(0) for the other child
    | Announce(st: Status)                // A prints the champion
    // a player or agent
    | Opening                             // agent: mkfifo
    | Listening                           // agent: reading its FIFO
    | Speak(st: Status, origin: int)      // writing the parent
    | Hear(origin: int)                   // reading the parent
    | Hand(st: Status)                    // a beaten player: writing the agent's FIFO
    | Gone

  /** What a process is about to do. */
  datatype Act =
    | Recv(c: Chan)
    | Send(c: Chan, m: Status)
    | WaitFor(k: int)                     // until k children have exited
    | Move
    | Halt

  function Doing(b: Bracket, n: int, l: Local): Act {
    match l
    case Gather(i, _) => Recv(Up(Kid(b, n, i)))
    case Reply(i, two) => Send(Down(Kid(b, n, i)), Pick(two, i))
    case Collect(i, _) => Recv(Up(Kid(b, n, i)))
    case Await(_, _) => WaitFor(1)
    case RelayUp(win) => Recv(Up(Kid(b, n, win)))
    case RelaySend(_, st) => Send(Up(n), st)
    case RelayDown(_) => Recv(Down(n))
    case RelayGive(win, st) => Send(Down(Kid(b, n, win)), st)
    case LastWait(_) => WaitFor(2)
    case Announce(st) => Send(Out, st)
    case Opening => Move
    case Listening => Recv(Fifo(n))
    case Speak(st, _) => Send(Up(n), st)
    case Hear(_) => Recv(Down(n))
    case Hand(st) => Send(Fifo(AgentOf(b, st.current_battle_id)), st)
    case Gone => Halt
  }

  /** The status of a finished tournament, or of a beaten player: a relay passes it on and ends. */
  predicate IsLast(m: Status) {
    m.HP <= 0 || (m.current_battle_id == 'A' && m.battle_ended_flag == 1)
  }

  function Stored(two: Two, i: int, m: Status): Two {
    if i == 0 then two.(s0 := m) else two.(s1 := m)
  }

  /** After read(). */
  function Received(b: Bracket, n: int, l: Local, m: Status): Local {
    match l
    case Gather(i, two) =>
      var two' := Stored(two, i, m.(current_battle_id := Letter(b, n)));
      if i == 0 then Gather(1, two') else Reply(0, Round(Ground(b, n), two'))
    case Collect(i, two) =>
      var two' := Stored(two, i, m);
      if i == 0 then Collect(1, two') else Reply(0, Round(Ground(b, n), two'))
    case RelayUp(win) => RelaySend(win, m)
    case RelayDown(win) => RelayGive(win, m)
    case Listening => Speak(m, m.HP)
    case Hear(origin) => Heard(b, n, origin, m)
    case _ => l
  }

  /** A player that has been sent its status. */
  function Heard(b: Bracket, n: int, origin: int, m: Status): Local {
    if m.battle_ended_flag != 1 then Speak(m, origin)
    else if m.HP <= 0 then
      if m.current_battle_id != 'A' && NodeAt(b, n).PlayerNode? && NodeAt(b, n).id <= 7
      then Hand(Restored(m, origin)) else Gone
    else if m.current_battle_id == 'A' then Gone
    else Speak(Recovered(m, origin), origin)
  }

  /** After write(). */
  function Sent(l: Local): Local {
    match l
    case Reply(i, two) =>
      if i == 0 then Reply(1, two)
      else if Over(two) then Await(Winner(two), Pick(two, Winner(two)))
      else Collect(0, two)
    case RelaySend(win, _) => RelayDown(win)
    case RelayGive(win, m) => if IsLast(m) then LastWait(m) else RelayUp(win)
    case Announce(_) => Gone
    case Speak(_, origin) => Hear(origin)
    case Hand(_) => Gone
    case _ => l
  }

  /** After wait(0). */
  function Waited(b: Bracket, n: int, l: Local): Local {
    match l
    case Await(win, st) => if Letter(b, n) == 'A' then LastWait(st) else RelayUp(win)
    case LastWait(st) => if Letter(b, n) == 'A' then Announce(st) else Gone
    case _ => l
  }

  // The whole

  datatype Net = Net(loc: seq<Local>, ch: map<Chan, seq<Status>>)

  function Loc(s: Net, n: int): Local { if 0 <= n < |s.loc| then s.loc[n] else Gone }

  function At(ch: map<Chan, seq<Status>>, c: Chan): seq<Status> { if c in ch then ch[c] else [] }

  function Get(s: Net, c: Chan): seq<Status> { At(s.ch, c) }

  /** How many children of n have exited. */
  function Exited(b: Bracket, s: Net, n: int): int {
    (if Loc(s, Kid(b, n, 0)).Gone? then 1 else 0) + if Loc(s, Kid(b, n, 1)).Gone? then 1 else 0
  }

  /** Process n can take its step. A FIFO can be written once its agent has opened it. */
  predicate Enabled(b: Bracket, s: Net, n: int) {
    && 0 <= n < |s.loc|
    && match Doing(b, n, s.loc[n])
       case Recv(c) => Get(s, c) != []
       case Send(c, _) => !(c.Fifo? && Loc(s, c.n).Opening?)
       case WaitFor(k) => Exited(b, s, n) >= k
       case Move => true
       case Halt => false
  }

  function Do(b: Bracket, s: Net, n: int): Net
    requires Enabled(b, s, n)
  {
    var l := s.loc[n];
    match Doing(b, n, l)
    case Recv(c) => Net(s.loc[n := Received(b, n, l, Get(s, c)[0])], s.ch[c := Get(s, c)[1..]])
    case Send(c, m) => Net(s.loc[n := Sent(l)], s.ch[c := Get(s, c) + [m]])
    case WaitFor(_) => Net(s.loc[n := Waited(b, n, l)], s.ch)
    case Move => Net(s.loc[n := Listening], s.ch)
  }

  /** Battles run the battle program and players the player program; only the root announces. */
  predicate LocalOk(b: Bracket, n: int, l: Local) {
    match l
    case Gather(_, _) => IsBattle(b, n)
    case Reply(_, _) => IsBattle(b, n)
    case Collect(_, _) => IsBattle(b, n)
    case Await(_, _) => IsBattle(b, n)
    case RelayUp(_) => IsBattle(b, n) && n != 0
    case RelaySend(_, _) => IsBattle(b, n) && n != 0
    case RelayDown(_) => IsBattle(b, n) && n != 0
    case RelayGive(_, _) => IsBattle(b, n) && n != 0
    case LastWait(_) => IsBattle(b, n)
    case Announce(_) => IsBattle(b, n) && n == 0
    case Gone => true
    case _ => !IsBattle(b, n)
  }

  ghost predicate Typed(b: Bracket, s: Net) {
    && |s.loc| == |b.nodes|
    && forall n {:trigger s.loc[n]} :: 0 <= n < |s.loc| ==> LocalOk(b, n, s.loc[n])
  }

  /** Every pipe has one reader and, but for the FIFOs, one writer. */
  function Reader(b: Bracket, c: Chan): int {
    match c
    case Up(n) => Dad(b, n)
    case Down(n) => n
    case Fifo(n) => n
    case Out => -1
  }

  function Writer(b: Bracket, c: Chan): int {
    match c
    case Up(n) => n
    case Down(n) => Dad(b, n)
    case Fifo(n) => -1
    case Out => 0
  }

  lemma {:induction false} OwnEnds(b: Bracket, n: int, l: Local)
    requires WellFormed(b) && InTree(b, n) && LocalOk(b, n, l)
    ensures Doing(b, n, l).Recv? ==> Reader(b, Doing(b, n, l).c) == n
    ensures Doing(b, n, l).Send? && !Doing(b, n, l).c.Fifo? ==> Writer(b, Doing(b, n, l).c) == n
  {
    NodeIsOk(b, n);
  }

  lemma {:induction false} StaysTyped(b: Bracket, s: Net, n: int)
    requires WellFormed(b) && Typed(b, s) && Enabled(b, s, n)
    ensures Typed(b, Do(b, s, n))
  {
    NodeIsOk(b, n);
    assert LocalOk(b, n, s.loc[n]);
  }

  // The player program

  class Contender {
    const id: int
    const origin_HP: int
    var mystatus: Status

    constructor (id: int, st: Status)
      ensures this.id == id && mystatus == st && origin_HP == st.HP
    {
      this.id, mystatus, origin_HP := id, st, st.HP;
    }

    /** A status has been read into `mystatus`: what the player does before it reads again. */
    method Take(ghost b: Bracket, ghost n: int) returns (next: Local)
      requires NodeAt(b, n).PlayerNode? && NodeAt(b, n).id == id
      modifies this
      ensures next == Heard(b, n, origin_HP, old(mystatus))
      ensures next.Speak? ==> next.st == mystatus
      ensures next.Hand? ==> next.st == mystatus
    {
      if mystatus.battle_ended_flag != 1 { return Speak(mystatus, origin_HP); }
      if mystatus.HP <= 0 {
        if mystatus.current_battle_id != 'A' && id <= 7 {
          mystatus := mystatus.(HP := origin_HP);
          mystatus := mystatus.(battle_ended_flag := 0);
          return Hand(mystatus);
        }
        return Gone;
      }
      if mystatus.current_battle_id == 'A' { return Gone; }
      mystatus := mystatus.(battle_ended_flag := 0);
      mystatus := mystatus.(HP := (origin_HP - mystatus.HP) / 2 + mystatus.HP);
      return Speak(mystatus, origin_HP);
    }
  }
}
