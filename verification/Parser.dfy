/** The two readers of numbers in client messages: `myatoi`, which takes three numbers out of a
    booking command, and atoi (section 7.22.1.2 of ISO C11), which takes an id. Numbers are
    unbounded. */
module Parser {

  function Digit(c: char): int { c as int - '0' as int }
  predicate IsDigit(c: char) { '0' <= c <= '9' }
  predicate IsAlpha(c: char) { 'A' <= c <= 'Z' || 'a' <= c <= 'z' }

  // Decimal text

  function Digits(n: nat): string {
    if n < 10 then [('0' as int + n) as char] else Digits(n / 10) + [('0' as int + n % 10) as char]
  }

  function Decimal(n: int): string {
    if n < 0 then "-" + Digits(-n) else Digits(n)
  }

  /** The command a client types: three numbers with single spaces, ended by CR LF. */
  function CommandText(a: int, b: int, c: int): string {
    Decimal(a) + " " + Decimal(b) + " " + Decimal(c) + "\r\n"
  }

  // myatoi

  /** Where `myatoi` stands: in the middle of a number, or returned. */
  datatype Scan =
    | Reading(nums: seq<int>, sum: int, sign: int)
    | Accepted(nums: seq<int>)
    | Refused

  const START := Reading([], 0, 1)

  /** One turn of the loop. */
  function Turn(st: Scan, c: char): Scan {
    if !st.Reading? then st
    else if IsAlpha(c) then Refused
    else if c == '-' then (if st.sum != 0 then Refused else Reading(st.nums, st.sum, -1))
    else if IsDigit(c) then Reading(st.nums, st.sum * 10 + Digit(c), st.sign)
    else
      var nums := st.nums + [st.sum * st.sign];
      if |nums| >= 3 then Accepted(nums) else Reading(nums, 0, 1)
  }

  function Turns(st: Scan, buf: string): Scan
    decreases buf
  {
    if buf == "" then st else Turns(Turn(st, buf[0]), buf[1..])
  }

  datatype Command = NoCommand | Command(nums: seq<int>)

  /** What `myatoi` makes of a message. */
  function Parse(buf: string): Command {
    var st := Turns(START, buf);
    if st.Accepted? then Command(st.nums) else NoCommand
  }

  lemma {:induction false} TurnsAppend(st: Scan, a: string, b: string)
    ensures Turns(st, a + b) == Turns(Turns(st, a), b)
    decreases a
  {
    if a == "" {
      assert a + b == b;
    } else {
      assert (a + b)[1..] == a[1..] + b;
      TurnsAppend(Turn(st, a[0]), a[1..], b);
    }
  }

  lemma {:induction false} AcceptedStays(nums: seq<int>, buf: string)
    ensures Turns(Accepted(nums), buf) == Accepted(nums)
  {
    if buf != "" { AcceptedStays(nums, buf[1..]); }
  }

  lemma {:induction false} RefusedStays(buf: string)
    ensures Turns(Refused, buf) == Refused
  {
    if buf != "" { RefusedStays(buf[1..]); }
  }

  lemma {:induction false} NumsInReading(st: Scan, buf: string)
    requires st.Reading? ==> |st.nums| < 3
    requires st.Accepted? ==> |st.nums| == 3
    ensures var st' := Turns(st, buf);
      (st'.Reading? ==> |st'.nums| < 3) && (st'.Accepted? ==> |st'.nums| == 3)
    decreases buf
  {
    if buf != "" { NumsInReading(Turn(st, buf[0]), buf[1..]); }
  }

  /** A command has exactly three numbers. */
  lemma {:induction false} ParseThree(buf: string)
    ensures Parse(buf).Command? ==> |Parse(buf).nums| == 3
  {
    NumsInReading(START, buf);
  }

  /** `myatoi` itself; `nums` has room for four numbers and the first three are written. */
  method MyAtoi(nums: array<int>, buf: string) returns (ok: bool)
    requires nums.Length == 4
    modifies nums
    ensures Parse(buf) == if ok then Command(nums[..3]) else NoCommand
  {
    var sign, idx, sum := 1, 0, 0;
    for i := 0 to |buf|
      invariant 0 <= idx < 3
      invariant Turns(START, buf[..i]) == Reading(nums[..idx], sum, sign)
    {
      assert buf == buf[..i + 1] + buf[i + 1..];
      assert buf[..i + 1] == buf[..i] + [buf[i]];
      TurnsAppend(START, buf[..i], [buf[i]]);
      TurnsAppend(START, buf[..i + 1], buf[i + 1..]);
      RefusedStays(buf[i + 1..]);
      if IsAlpha(buf[i]) { return false; }
      if buf[i] == '-' {
        if sum != 0 { return false; }
        sign := -1;
      } else if IsDigit(buf[i]) {
        sum := sum * 10;
        sum := sum + Digit(buf[i]);
      } else {
        ghost var before := nums[..idx];
        nums[idx] := sum * sign;
        idx := idx + 1;
        assert nums[..idx] == before + [sum * sign];
        sum := 0;
        sign := 1;
        if idx >= 3 {
          AcceptedStays(nums[..3], buf[i + 1..]);
          return true;
        }
      }
    }
    assert buf[..|buf|] == buf;
    return false;
  }

  // Which messages are commands, said without the scan

  /** Minus signs and decimal digits. */
  predicate InField(c: char) { c == '-' || '0' <= c <= '9' }

  /** What ends a field: anything else but a letter. */
  predicate EndsField(c: char) { !InField(c) && !('A' <= c <= 'Z') && !('a' <= c <= 'z') }

  /** No minus sign stands behind a digit other than zero. */
  predicate Field(f: string) {
    && (forall i :: 0 <= i < |f| ==> InField(f[i]))
    && (forall i, j :: 0 <= i < j < |f| && f[j] == '-' ==> f[i] == '-' || f[i] == '0')
  }

  /** The digits read as one decimal number. */
  function Worth(f: string): int {
    if f == "" then 0
    else
      var front, last := f[..|f| - 1], f[|f| - 1];
      if last == '-' then Worth(front) else 10 * Worth(front) + (last as int - 48)
  }

  function FieldValue(f: string): int { if '-' in f then -Worth(f) else Worth(f) }

  /** Three fields, each with its end, and anything behind. */
  predicate Fields(buf: string, f: seq<string>, ends: string, rest: string) {
    && |f| == |ends| == 3 && buf == f[0] + [ends[0]] + (f[1] + [ends[1]] + (f[2] + [ends[2]] + rest))
    && (forall k :: 0 <= k < 3 ==> Field(f[k]) && EndsField(ends[k]))
  }

  lemma {:induction false} WorthZero(f: string)
    requires forall i :: 0 <= i < |f| ==> InField(f[i])
    ensures Worth(f) >= 0
    ensures Worth(f) == 0 <==> forall i :: 0 <= i < |f| ==> f[i] == '-' || f[i] == '0'
    decreases |f|
  {
    if f != "" {
      var front := f[..|f| - 1];
      assert f == front + [f[|f| - 1]];
      assert forall i :: 0 <= i < |front| ==> front[i] == f[i];
      WorthZero(front);
    }
  }

  /** The scan of characters of fields: it stands behind a field, or has refused. */
  lemma {:induction false} FieldTurns(nums: seq<int>, f: string)
    requires forall i :: 0 <= i < |f| ==> InField(f[i])
    ensures Turns(Reading(nums, 0, 1), f)
      == if Field(f) then Reading(nums, Worth(f), if '-' in f then -1 else 1) else Refused
    decreases |f|
  {
    if f != "" {
      var front, last := f[..|f| - 1], f[|f| - 1];
      assert f == front + [last];
      FieldTurns(nums, front);
      TurnsAppend(Reading(nums, 0, 1), front, [last]);
      OneTurn(Turns(Reading(nums, 0, 1), front), last);
      FieldFront(f, front, last);
    }
  }

  lemma {:induction false} OneTurn(st: Scan, c: char)
    ensures Turns(st, [c]) == Turn(st, c)
  {
    assert [c][1..] == "";
    assert Turns(st, [c]) == Turns(Turn(st, c), "");
  }

  lemma {:induction false} FieldFront(f: string, front: string, last: char)
    requires f == front + [last] && forall i :: 0 <= i < |f| ==> InField(f[i])
    ensures Field(f) <==> Field(front) && (last == '-' ==> Worth(front) == 0)
  {
    assert forall i :: 0 <= i < |front| ==> front[i] == f[i];
    WorthZero(front);
    if Field(f) {
      forall i, j | 0 <= i < j < |front| && front[j] == '-' ensures front[i] == '-' || front[i] == '0' {
        assert f[j] == '-';
      }
      if last == '-' {
        forall i | 0 <= i < |front| ensures front[i] == '-' || front[i] == '0' { assert f[|front|] == '-'; }
      }
    }
    if Field(front) && (last == '-' ==> Worth(front) == 0) {
      forall i, j | 0 <= i < j < |f| && f[j] == '-' ensures f[i] == '-' || f[i] == '0' {
        if j < |front| { assert front[j] == '-'; } else { assert front[i] == '-' || front[i] == '0'; }
      }
    }
  }

  /** The scan of a field and the character behind it. */
  lemma {:induction false} FieldThenEnd(nums: seq<int>, f: string, end: char)
    requires |nums| < 3 && (forall i :: 0 <= i < |f| ==> InField(f[i])) && !InField(end)
    ensures Turns(Reading(nums, 0, 1), f + [end])
      == if !Field(f) || !EndsField(end) then Refused
         else if |nums| == 2 then Accepted(nums + [FieldValue(f)])
         else Reading(nums + [FieldValue(f)], 0, 1)
  {
    FieldTurns(nums, f);
    TurnsAppend(Reading(nums, 0, 1), f, [end]);
    OneTurn(Turns(Reading(nums, 0, 1), f), end);
  }

  /** Three fields are read as their values. */
  lemma {:induction false} FieldsAccepted(buf: string, f: seq<string>, ends: string, rest: string)
    requires Fields(buf, f, ends, rest)
    ensures Parse(buf) == Command([FieldValue(f[0]), FieldValue(f[1]), FieldValue(f[2])])
  {
    var v := [FieldValue(f[0]), FieldValue(f[1]), FieldValue(f[2])];
    FieldThenEnd([], f[0], ends[0]);
    FieldThenEnd(v[..1], f[1], ends[1]);
    FieldThenEnd(v[..2], f[2], ends[2]);
    assert [] + [v[0]] == v[..1] && v[..1] + [v[1]] == v[..2] && v[..2] + [v[2]] == v;
    TurnsAppend(START, f[0] + [ends[0]], f[1] + [ends[1]] + (f[2] + [ends[2]] + rest));
    TurnsAppend(Reading(v[..1], 0, 1), f[1] + [ends[1]], f[2] + [ends[2]] + rest);
    TurnsAppend(Reading(v[..2], 0, 1), f[2] + [ends[2]], rest);
    AcceptedStays(v, rest);
  }

  /** How far the first field can reach. */
  function FieldLength(buf: string): (k: nat)
    ensures k <= |buf| && (forall i :: 0 <= i < k ==> InField(buf[i])) && (k < |buf| ==> !InField(buf[k]))
  {
    if buf == "" || !InField(buf[0]) then 0 else 1 + FieldLength(buf[1..])
  }

  /** A message that is accepted in the end begins with a field and its end. */
  lemma {:induction false} FirstField(nums: seq<int>, buf: string) returns (f: string, end: char, rest: string)
    requires |nums| < 3 && Turns(Reading(nums, 0, 1), buf).Accepted?
    ensures buf == f + [end] + rest && Field(f) && EndsField(end)
    ensures Turns(Reading(nums, 0, 1), buf)
      == Turns(if |nums| == 2 then Accepted(nums + [FieldValue(f)]) else Reading(nums + [FieldValue(f)], 0, 1), rest)
  {
    var k := FieldLength(buf);
    f := buf[..k];
    if k == |buf| {
      assert f == buf;
      FieldTurns(nums, f);
      assert false;
    } else {
      end, rest := buf[k], buf[k + 1..];
      assert buf == f + [end] + rest;
      FieldThenEnd(nums, f, end);
      TurnsAppend(Reading(nums, 0, 1), f + [end], rest);
      RefusedStays(rest);
    }
  }

  /** Nothing else is accepted: a letter or a misplaced minus sign before the third end refuses the
      message, and so does the lack of an end. */
  lemma {:induction false} OnlyFieldsAccepted(buf: string) returns (f: seq<string>, ends: string, rest: string)
    requires Parse(buf).Command?
    ensures Fields(buf, f, ends, rest)
  {
    var f0, e0, r0 := FirstField([], buf);
    assert [] + [FieldValue(f0)] == [FieldValue(f0)];
    var f1, e1, r1 := FirstField([FieldValue(f0)], r0);
    var f2, e2, r2 := FirstField([FieldValue(f0)] + [FieldValue(f1)], r1);
    f, ends, rest := [f0, f1, f2], [e0, e1, e2], r2;
  }

  // Round trips

  /** Reading the digits of n. */
  lemma {:induction false} DigitTurns(nums: seq<int>, sign: int, n: nat)
    ensures Turns(Reading(nums, 0, sign), Digits(n)) == Reading(nums, n, sign)
  {
    if n < 10 {
      DigitTurn(nums, 0, sign, n);
    } else {
      DigitTurns(nums, sign, n / 10);
      TurnsAppend(Reading(nums, 0, sign), Digits(n / 10), [('0' as int + n % 10) as char]);
      DigitTurn(nums, n / 10, sign, n % 10);
    }
  }

  lemma {:induction false} DigitTurn(nums: seq<int>, sum: int, sign: int, d: nat)
    requires d < 10
    ensures Turns(Reading(nums, sum, sign), [('0' as int + d) as char]) == Reading(nums, sum * 10 + d, sign)
  {
    var c := ('0' as int + d) as char;
    assert [c][1..] == "";
    assert Turns(Reading(nums, sum, sign), [c]) == Turns(Turn(Reading(nums, sum, sign), c), "");
  }

  /** Reading the decimal text of n and the character after it. */
  lemma {:induction false} DecimalTurns(nums: seq<int>, n: int, end: char)
    requires |nums| < 3 && !IsAlpha(end) && !IsDigit(end) && end != '-'
    ensures Turns(Reading(nums, 0, 1), Decimal(n) + [end])
      == if |nums| == 2 then Accepted(nums + [n]) else Reading(nums + [n], 0, 1)
  {
    var st := Reading(nums, 0, 1);
    TurnsAppend(st, Decimal(n), [end]);
    if n < 0 {
      assert Decimal(n)[1..] == Digits(-n);
      assert Turns(st, Decimal(n)) == Turns(Turn(st, '-'), Digits(-n));
      DigitTurns(nums, -1, -n);
      assert Turns(st, Decimal(n)) == Reading(nums, -n, -1);
    } else {
      DigitTurns(nums, 1, n);
    }
    var mid := Turns(st, Decimal(n));
    assert [end][1..] == "";
    assert Turns(mid, [end]) == Turns(Turn(mid, end), "");
  }

  /** Every booking command that a client can type is read back as the numbers it was made of. */
  lemma {:induction false} CommandRoundTrip(a: int, b: int, c: int)
    ensures Parse(CommandText(a, b, c)) == Command([a, b, c])
  {
    var ta, tb, tc := Decimal(a) + [' '], Decimal(b) + [' '], Decimal(c) + ['\r'];
    assert CommandText(a, b, c) == ta + (tb + (tc + "\n"));
    TurnsAppend(START, ta, tb + (tc + "\n"));
    DecimalTurns([], a, ' ');
    TurnsAppend(Reading([a], 0, 1), tb, tc + "\n");
    DecimalTurns([a], b, ' ');
    TurnsAppend(Reading([a, b], 0, 1), tc, "\n");
    DecimalTurns([a, b], c, '\r');
    assert [] + [a] == [a] && [a] + [b] == [a, b] && [a, b] + [c] == [a, b, c];
    AcceptedStays([a, b, c], "\n");
  }

  // atoi

  predicate IsSpace(c: char) { c in {' ', '\t', '\n', '\r', 11 as char, 12 as char} }

  function Leading(buf: string, sum: int): int {
    if buf != "" && IsDigit(buf[0]) then Leading(buf[1..], sum * 10 + Digit(buf[0])) else sum
  }

  function Atoi(buf: string): int {
    if buf != "" && IsSpace(buf[0]) then Atoi(buf[1..])
    else if buf != "" && buf[0] == '-' then -Leading(buf[1..], 0)
    else if buf != "" && buf[0] == '+' then Leading(buf[1..], 0)
    else Leading(buf, 0)
  }

  lemma {:induction false} LeadingDigits(n: nat, rest: string)
    requires rest != "" ==> !IsDigit(rest[0])
    ensures Leading(Digits(n) + rest, 0) == n
    decreases n
  {
    LeadingRun(n, rest);
    assert Leading(rest, n) == n;
  }

  lemma {:induction false} LeadingRun(n: nat, rest: string)
    ensures Leading(Digits(n) + rest, 0) == Leading(rest, n)
    decreases n
  {
    var last := [('0' as int + n % 10) as char];
    if n < 10 {
      assert (Digits(n) + rest)[1..] == rest;
    } else {
      assert Digits(n) + rest == Digits(n / 10) + (last + rest);
      LeadingRun(n / 10, last + rest);
      assert (last + rest)[1..] == rest;
    }
  }

  /** Reading digits before anything else. */
  lemma {:induction false} LeadingWorth(digits: string, rest: string)
    requires forall i :: 0 <= i < |digits| ==> '0' <= digits[i] <= '9'
    ensures Leading(digits + rest, 0) == Leading(rest, Worth(digits))
    decreases |digits|
  {
    if digits == "" {
      assert digits + rest == rest;
    } else {
      var front, last := digits[..|digits| - 1], digits[|digits| - 1];
      assert digits + rest == front + ([last] + rest);
      LeadingWorth(front, [last] + rest);
      assert ([last] + rest)[1..] == rest;
    }
  }

  /** What atoi reads of any text: behind blanks and one sign, the decimal number of the digits that
      follow, none counting as 0. */
  lemma {:induction false} AtoiIs(blanks: string, sign: string, digits: string, rest: string)
    requires forall i :: 0 <= i < |blanks| ==> blanks[i] == ' ' || 9 <= blanks[i] as int <= 13
    requires sign in {"", "+", "-"}
    requires forall i :: 0 <= i < |digits| ==> '0' <= digits[i] <= '9'
    requires rest != "" ==> !('0' <= rest[0] <= '9')
    requires digits == sign == "" && rest != "" ==> rest[0] !in " +-" && !(9 <= rest[0] as int <= 13)
    ensures Atoi(blanks + (sign + (digits + rest))) == if sign == "-" then -Worth(digits) else Worth(digits)
    decreases |blanks|
  {
    var text := sign + (digits + rest);
    if blanks != "" {
      assert (blanks + text)[1..] == blanks[1..] + text;
      AtoiIs(blanks[1..], sign, digits, rest);
    } else {
      assert blanks + text == text;
      LeadingWorth(digits, rest);
      assert Leading(rest, Worth(digits)) == Worth(digits);
      if sign == "" { assert text == digits + rest; } else { assert text[1..] == digits + rest; }
    }
  }

  /** An id typed as a decimal number with any line end is read back. */
  lemma {:induction false} AtoiRoundTrip(n: nat, rest: string)
    requires rest != "" ==> !IsDigit(rest[0])
    ensures Atoi(Decimal(n) + rest) == n
  {
    DigitsStart(n);
    LeadingDigits(n, rest);
  }

  lemma {:induction false} DigitsStart(n: nat)
    ensures Digits(n) != "" && IsDigit(Digits(n)[0])
    decreases n
  {
    if n >= 10 { DigitsStart(n / 10); }
  }
}
