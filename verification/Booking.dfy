/** The arithmetic of one booking command: which commands a record accepts. */
module Booking {
  const OBJ_NUM: nat := 3
  const LIMIT := 15

  /** The bookings of one record: food, concert, electronics. */
  type Counts = c: seq<int> | |c| == OBJ_NUM witness [0, 0, 0]

  function Plus(a: Counts, b: Counts): Counts { [a[0] + b[0], a[1] + b[1], a[2] + b[2]] }

  function Total(a: Counts): int { a[0] + a[1] + a[2] }

  /** No entry below zero and at most fifteen items in all. */
  predicate InBounds(a: Counts) { a[0] >= 0 && a[1] >= 0 && a[2] >= 0 && Total(a) <= LIMIT }

  function PrefixSum(a: Counts, k: nat): int
    requires k <= OBJ_NUM
  {
    if k == 0 then 0 else PrefixSum(a, k - 1) + a[k - 1]
  }

  /** `handle_read`'s code for a command on a record: 2 as soon as a running total passes the
      limit, 3 for a negative entry, 1 for an accepted command. */
  function Judge(state: Counts, nums: Counts): int {
    var s := Plus(state, nums);
    if exists k :: 0 <= k <= OBJ_NUM && PrefixSum(s, k) > LIMIT then 2
    else if exists k :: 0 <= k < OBJ_NUM && s[k] < 0 then 3
    else 1
  }

  /** The early exit loses nothing: a command is accepted exactly when its result is in bounds. */
  lemma {:induction false} JudgeAccepts(state: Counts, nums: Counts)
    ensures Judge(state, nums) == 1 <==> InBounds(Plus(state, nums))
  {
    var s := Plus(state, nums);
    Prefixes(s);
    assert s[0] >= 0 && s[1] >= 0 && s[2] >= 0 <==> !exists k :: 0 <= k < OBJ_NUM && s[k] < 0;
  }

  lemma {:induction false} Prefixes(s: Counts)
    ensures PrefixSum(s, 0) == 0 && PrefixSum(s, 1) == s[0] && PrefixSum(s, 2) == s[0] + s[1]
    ensures PrefixSum(s, 3) == Total(s)
  {
  }

  /** A refusal is reported as too many items exactly when some running total is too high, even
      if a later negative number would bring it down again. */
  lemma {:induction false} JudgeTooMany(state: Counts, nums: Counts)
    ensures var s := Plus(state, nums);
      Judge(state, nums) == 2 <==> s[0] > LIMIT || s[0] + s[1] > LIMIT || Total(s) > LIMIT
  {
    Prefixes(Plus(state, nums));
  }

  /** The three codes, entry by entry: too many items as soon as a running total passes fifteen,
      otherwise too few if an entry falls below zero, otherwise accepted. */
  lemma {:induction false} JudgeIs(state: Counts, nums: Counts)
    ensures var a, b, c := state[0] + nums[0], state[1] + nums[1], state[2] + nums[2];
      var tooMany := a > 15 || a + b > 15 || a + b + c > 15;
      var tooFew := a < 0 || b < 0 || c < 0;
      && (Judge(state, nums) == 2 <==> tooMany)
      && (Judge(state, nums) == 3 <==> !tooMany && tooFew)
      && (Judge(state, nums) == 1 <==> a >= 0 && b >= 0 && c >= 0 && a + b + c <= 15)
      && Plus(state, nums) == [a, b, c]
  {
    JudgeAccepts(state, nums);
    JudgeTooMany(state, nums);
  }

  /** The two checks of `handle_read` and its update, on the record in memory. */
  method Apply(state: array<int>, nums: array<int>) returns (ret: int)
    requires state.Length == OBJ_NUM && nums.Length == OBJ_NUM + 1 && nums != state
    modifies state
    ensures ret == Judge(old(state[..]), nums[..3])
    ensures state[..] == if ret == 1 then Plus(old(state[..]), nums[..3]) else old(state[..])
  {
    ghost var s := Plus(state[..], nums[..3]);
    var total := 0;
    for i := 0 to 3
      invariant total == PrefixSum(s, i)
      invariant forall k :: 0 <= k <= i ==> PrefixSum(s, k) <= LIMIT
    {
      total := total + state[i];
      total := total + nums[i];
      assert total == PrefixSum(s, i + 1);
      if total > 15 { return 2; }
    }
    for i := 0 to 3
      invariant forall k :: 0 <= k < i ==> s[k] >= 0
    {
      total := state[i] + nums[i];
      if total < 0 {
        assert s[i] < 0;
        return 3;
      }
    }
    for i := 0 to 3
      invariant forall k :: 0 <= k < 3 ==> state[k] == if k < i then s[k] else old(state[k])
    {
      state[i] := state[i] + nums[i];
    }
    return 1;
  }
}
