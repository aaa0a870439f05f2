/** One battle: a round of `play`, the rounds until somebody is beaten, and a winner's recovery. */
module Battle {

  datatype Attribute = FIRE | GRASS | WATER

  datatype Status = Status(real_player_id: int, HP: int, ATK: int, attr: Attribute,
                           current_battle_id: char, battle_ended_flag: int)

  /** The two entries of the status array. */
  datatype Two = Two(s0: Status, s1: Status)

  function Hit(hitter: Status, ground: Attribute): int {
    hitter.ATK * if hitter.attr == ground then 2 else 1
  }

  /** The weaker combatant strikes first, the one with the lower id on equal HP. */
  predicate FirstIsZero(t: Two) {
    t.s0.HP < t.s1.HP || (t.s0.HP == t.s1.HP && t.s0.real_player_id < t.s1.real_player_id)
  }

  function Ended(t: Two): Two {
    Two(t.s0.(battle_ended_flag := 1), t.s1.(battle_ended_flag := 1))
  }

  function Struck(s: Status, hitter: Status, ground: Attribute): Status { s.(HP := s.HP - Hit(hitter, ground)) }

  /** `play`. */
  function Round(ground: Attribute, t: Two): Two {
    if FirstIsZero(t) then
      var s1 := Struck(t.s1, t.s0, ground);
      if s1.HP <= 0 then Ended(Two(t.s0, s1))
      else
        var s0 := Struck(t.s0, s1, ground);
        if s0.HP <= 0 then Ended(Two(s0, s1)) else Two(s0, s1)
    else
      var s0 := Struck(t.s0, t.s1, ground);
      if s0.HP <= 0 then Ended(Two(s0, t.s1))
      else
        var s1 := Struck(t.s1, s0, ground);
        if s1.HP <= 0 then Ended(Two(s0, s1)) else Two(s0, s1)
  }

  /** What one round does, for all statuses: a strike on the hitter's own ground counts twice. */
  lemma {:induction false} RoundIs(ground: Attribute, t: Two)
    ensures var a, b, a', b' := t.s0, t.s1, Round(ground, t).s0, Round(ground, t).s1;
      var byA, byB := if a.attr == ground then a.ATK + a.ATK else a.ATK, if b.attr == ground then b.ATK + b.ATK else b.ATK;
      var weakerA := a.HP < b.HP || (a.HP == b.HP && a.real_player_id < b.real_player_id);
      // the weaker combatant wins unharmed if its first strike suffices
      && (weakerA && b.HP <= byA ==> a'.HP == a.HP && b'.HP == b.HP - byA)
      && (!weakerA && a.HP <= byB ==> b'.HP == b.HP && a'.HP == a.HP - byB)
      // otherwise each takes the other's strike
      && (!(weakerA && b.HP <= byA) && !(!weakerA && a.HP <= byB) ==> a'.HP == a.HP - byB && b'.HP == b.HP - byA)
      // the battle ends with the first who is beaten, and nothing else changes
      && var ends := a'.HP <= 0 || b'.HP <= 0;
         && a' == a.(HP := a'.HP, battle_ended_flag := if ends then 1 else a.battle_ended_flag)
         && b' == b.(HP := b'.HP, battle_ended_flag := if ends then 1 else b.battle_ended_flag)
  {
  }

  /** Fit to fight. */
  predicate Fit(s: Status) { s.HP > 0 && s.ATK > 0 && s.battle_ended_flag == 0 }

  /** Apart from HP and flag nothing changes, and HP does not grow. */
  predicate Worn(s: Status, s': Status) {
    s' == s.(HP := s'.HP, battle_ended_flag := s'.battle_ended_flag) && s'.HP <= s.HP
  }

  predicate Over(t: Two) { t.s0.battle_ended_flag == 1 }

  /** Exactly one is beaten and both flags are set. */
  predicate Decided(t: Two) {
    t.s0.battle_ended_flag == t.s1.battle_ended_flag == 1 && (t.s0.HP > 0 <==> t.s1.HP <= 0)
  }

  /** One round: either both have lost at least a point and fight on, or the battle is decided. */
  lemma {:induction false} RoundStep(ground: Attribute, t: Two)
    requires Fit(t.s0) && Fit(t.s1)
    ensures var t' := Round(ground, t);
      && Worn(t.s0, t'.s0) && Worn(t.s1, t'.s1)
      && if Over(t') then Decided(t') else Fit(t'.s0) && Fit(t'.s1) && t'.s0.HP < t.s0.HP && t'.s1.HP < t.s1.HP
  {
    HitPositive(t.s0, ground);
    HitPositive(t.s1, ground);
  }

  lemma {:induction false} HitPositive(s: Status, ground: Attribute)
    requires s.ATK > 0
    ensures Hit(s, ground) >= 1
  {
  }

  /** The statuses when the battle is over. */
  function Fight(ground: Attribute, t: Two): Two
    requires Fit(t.s0) && Fit(t.s1)
    decreases t.s0.HP
  {
    RoundStep(ground, t);
    var t' := Round(ground, t);
    if Over(t') then t' else Fight(ground, t')
  }

  function Rounds(ground: Attribute, t: Two): nat
    requires Fit(t.s0) && Fit(t.s1)
    decreases t.s0.HP
  {
    RoundStep(ground, t);
    var t' := Round(ground, t);
    if Over(t') then 1 else 1 + Rounds(ground, t')
  }

  function Least(a: int, b: int): int { if a < b then a else b }

  /** Every battle ends within as many rounds as the weaker combatant has points, with exactly
      one of the two beaten and both flags set. */
  lemma {:induction false} FightEnds(ground: Attribute, t: Two)
    requires Fit(t.s0) && Fit(t.s1)
    ensures var f := Fight(ground, t); Decided(f) && Worn(t.s0, f.s0) && Worn(t.s1, f.s1)
    ensures 1 <= Rounds(ground, t) <= Least(t.s0.HP, t.s1.HP)
    decreases t.s0.HP
  {
    RoundStep(ground, t);
    var t' := Round(ground, t);
    if !Over(t') { FightEnds(ground, t'); }
  }

  /** The points of both after m exchanges of strikes. */
  function Exchanged(t: Two, byA: int, byB: int, m: nat): Two {
    Two(t.s0.(HP := t.s0.HP - m * byB), t.s1.(HP := t.s1.HP - m * byA))
  }

  /** What a strike of each costs the other. */
  predicate Strikes(ground: Attribute, t: Two, byA: int, byB: int) {
    && byA == (if t.s0.attr == ground then t.s0.ATK + t.s0.ATK else t.s0.ATK)
    && byB == (if t.s1.attr == ground then t.s1.ATK + t.s1.ATK else t.s1.ATK)
  }

  /** A battle is a number of full exchanges and one last round. The exchanges leave both standing,
      and one more would beat somebody; who wins is decided by who strikes first in that round. */
  lemma {:induction false} FightIs(ground: Attribute, t: Two, byA: int, byB: int)
    requires Fit(t.s0) && Fit(t.s1) && Strikes(ground, t, byA, byB)
    ensures var last := Exchanged(t, byA, byB, Rounds(ground, t) - 1);
      && last.s0.HP > 0 && last.s1.HP > 0
      && (last.s0.HP <= byB || last.s1.HP <= byA)
      && Fight(ground, t) == Round(ground, last)
    decreases t.s0.HP
  {
    RoundStep(ground, t);
    var t' := Round(ground, t);
    OneRound(ground, t, byA, byB);
    if !Over(t') {
      FightIs(ground, t', byA, byB);
      MoreExchanges(t, byA, byB, Rounds(ground, t') - 1);
    }
  }

  /** A round that beats nobody is a full exchange. */
  lemma {:induction false} OneRound(ground: Attribute, t: Two, byA: int, byB: int)
    requires Fit(t.s0) && Fit(t.s1) && Strikes(ground, t, byA, byB)
    ensures Exchanged(t, byA, byB, 0) == t
    ensures if Over(Round(ground, t)) then t.s0.HP <= byB || t.s1.HP <= byA else Round(ground, t) == Exchanged(t, byA, byB, 1)
  {
    RoundIs(ground, t);
  }

  lemma {:induction false} MoreExchanges(t: Two, byA: int, byB: int, m: nat)
    ensures Exchanged(Exchanged(t, byA, byB, 1), byA, byB, m) == Exchanged(t, byA, byB, m + 1)
  {
    assert byA + m * byA == (m + 1) * byA && byB + m * byB == (m + 1) * byB;
  }

  function Winner(t: Two): int { if t.s0.HP > 0 then 0 else 1 }

  function Pick(t: Two, i: int): Status { if i == 0 then t.s0 else t.s1 }

  /** A winner on the way to its next battle. */
  function Recovered(s: Status, origin: int): Status {
    s.(battle_ended_flag := 0, HP := (origin - s.HP) / 2 + s.HP)
  }

  /** A loser on the way to the losers' bracket. */
  function Restored(s: Status, origin: int): Status {
    s.(HP := origin, battle_ended_flag := 0)
  }

  /** Half of what a winner has lost is given back: it stays fit and within its first HP. */
  lemma {:induction false} RecoveryFit(s: Status, origin: int)
    requires 0 < s.HP <= origin && s.ATK > 0
    ensures Fit(Recovered(s, origin)) && s.HP <= Recovered(s, origin).HP <= origin
  {
  }

  /** Its points are the mean of those left and its first ones, rounded down; a loser has its first
      points back. The battle is forgotten, and nothing else changes. */
  lemma {:induction false} RecoveryIs(s: Status, origin: int)
    requires s.HP <= origin
    ensures var w, l := Recovered(s, origin), Restored(s, origin);
      && 2 * w.HP <= origin + s.HP <= 2 * w.HP + 1 && w == s.(HP := w.HP, battle_ended_flag := 0)
      && l.HP == origin && l == s.(HP := l.HP, battle_ended_flag := 0)
  {
  }

  // The program

  class Ring {
    const status: array<Status>
    const attr: Attribute

    constructor (attr: Attribute, a: Status, b: Status)
      ensures Valid() && fresh(status) && View() == Two(a, b) && this.attr == attr
    {
      this.attr := attr;
      status := new Status[2](i => if i == 0 then a else b);
    }

    ghost predicate Valid() { status.Length == 2 }

    ghost function View(): Two
      requires Valid()
      reads status
    {
      Two(status[0], status[1])
    }

    method Play()
      requires Valid()
      modifies status
      ensures View() == Round(attr, old(View()))
    {
      var first, second;
      if status[0].HP < status[1].HP
        || (status[0].HP == status[1].HP && status[0].real_player_id < status[1].real_player_id)
      {
        first, second := 0, 1;
      } else {
        first, second := 1, 0;
      }
      var hit := if status[first].attr == attr then 2 else 1;
      status[second] := status[second].(HP := status[second].HP - status[first].ATK * hit);
      if status[second].HP <= 0 {
        status[first] := status[first].(battle_ended_flag := 1);
        status[second] := status[second].(battle_ended_flag := 1);
        return;
      }
      hit := if status[second].attr == attr then 2 else 1;
      status[first] := status[first].(HP := status[first].HP - status[second].ATK * hit);
      if status[first].HP <= 0 {
        status[first] := status[first].(battle_ended_flag := 1);
        status[second] := status[second].(battle_ended_flag := 1);
        return;
      }
    }

    /** The round loop between players who send back what they are sent. */
    method Battle() returns (win: int, ghost rounds: nat)
      requires Valid() && Fit(status[0]) && Fit(status[1])
      modifies status
      ensures View() == Fight(attr, old(View())) && win == Winner(View())
      ensures rounds == Rounds(attr, old(View())) <= Least(old(status[0].HP), old(status[1].HP))
      ensures status[win].HP > 0 >= status[1 - win].HP
    {
      ghost var t := View();
      FightEnds(attr, t);
      rounds := 0;
      while true
        invariant Fit(status[0]) && Fit(status[1])
        invariant Fight(attr, t) == Fight(attr, View()) && Rounds(attr, t) == rounds + Rounds(attr, View())
        decreases status[0].HP
      {
        RoundStep(attr, View());
        Play();
        rounds := rounds + 1;
        if status[0].battle_ended_flag == 1 {
          if status[0].HP > 0 { win := 0; } else { win := 1; }
          return;
        }
      }
    }
  }
}
