/** Movie titles as C strings: strcmp, the secret key that a leaf sort appends, and
    exactly when appending it leaves the order of two titles alone. */
module Titles {

  /** A title is a string of non-NUL bytes, one char a byte. */
  type Title = string

  /** What `add_secret` appends in the library that is shipped. The library is meant to be
      replaced (HW4/README.md:14), so everything below is for any sound key. */
  const KEY: Title := "\t[It's top secret.]"

  /** The first byte lies below every other. */
  predicate Sound(key: Title) {
    forall j :: 0 < j < |key| ==> key[0] < key[j]
  }

  /** The sign of strcmp (section 7.24.4.2 of ISO C11). */
  function StrCmp(a: Title, b: Title): int {
    if a == [] && b == [] then 0
    else if a == [] then -1
    else if b == [] then 1
    else if a[0] < b[0] then -1
    else if b[0] < a[0] then 1
    else StrCmp(a[1..], b[1..])
  }

  /** `a` comes before `b` in a dictionary: they part at a smaller byte of `a`, or `a` ends first. */
  ghost predicate Precedes(a: Title, b: Title) {
    exists k :: 0 <= k <= |a| && k < |b| && a[..k] == b[..k] && (k == |a| || a[k] < b[k])
  }

  lemma {:induction false} StrCmpIs(a: Title, b: Title)
    ensures StrCmp(a, b) < 0 <==> Precedes(a, b)
    ensures StrCmp(a, b) == 0 <==> a == b
    ensures StrCmp(a, b) > 0 <==> Precedes(b, a)
  {
    StrCmpSign(a, b);
    if a != [] && b != [] && a[0] == b[0] {
      StrCmpIs(a[1..], b[1..]);
      PrecedesTail(a, b);
      PrecedesTail(b, a);
    } else {
      if StrCmp(a, b) < 0 { assert a[..0] == b[..0]; }
      if StrCmp(a, b) > 0 { assert a[..0] == b[..0]; }
      NotPrecedes(a, b);
      NotPrecedes(b, a);
    }
  }

  lemma {:induction false} PrecedesTail(a: Title, b: Title)
    requires a != [] && b != [] && a[0] == b[0]
    ensures Precedes(a, b) <==> Precedes(a[1..], b[1..])
  {
    if k :| 0 <= k <= |a| && k < |b| && a[..k] == b[..k] && (k == |a| || a[k] < b[k]) {
      assert k > 0 && a[1..][..k - 1] == a[..k][1..] == b[..k][1..] == b[1..][..k - 1];
    }
    if k :| 0 <= k <= |a[1..]| && k < |b[1..]| && a[1..][..k] == b[1..][..k] && (k == |a[1..]| || a[1..][k] < b[1..][k]) {
      assert a[..k + 1] == [a[0]] + a[1..][..k] && b[..k + 1] == [b[0]] + b[1..][..k];
    }
  }

  lemma {:induction false} SameHead(a: Title, b: Title, k: nat)
    requires k <= |a| && k <= |b| && a[..k] == b[..k]
    ensures k > 0 ==> a[0] == b[0]
  {
    assert k > 0 ==> a[0] == a[..k][0] && b[0] == b[..k][0];
  }

  lemma {:induction false} NotPrecedes(a: Title, b: Title)
    requires a == [] || b == [] || a[0] != b[0]
    ensures Precedes(a, b) <==> b != [] && (a == [] || a[0] < b[0])
  {
    if k :| 0 <= k <= |a| && k < |b| && a[..k] == b[..k] && (k == |a| || a[k] < b[k]) {
      SameHead(a, b, k);
    }
    if b != [] && (a == [] || a[0] < b[0]) { assert a[..0] == b[..0]; }
  }

  function AddSecret(key: Title, s: Title): Title { s + key }

  /** `b` extends `a` by a non-empty rest that sorts below the key: the one way in which
      the key can turn the order of two titles round. */
  predicate Inverts(key: Title, a: Title, b: Title) {
    && |a| < |b|
    && b[..|a|] == a
    && StrCmp(b[|a|..], key) < 0
  }

  lemma {:induction false} StrCmpSign(a: Title, b: Title)
    ensures StrCmp(a, b) in {-1, 0, 1}
    ensures StrCmp(b, a) == -StrCmp(a, b)
    ensures StrCmp(a, b) == 0 <==> a == b
  {
    if a != [] && b != [] {
      StrCmpSign(a[1..], b[1..]);
      assert a == [a[0]] + a[1..] && b == [b[0]] + b[1..];
    }
  }

  lemma {:induction false} StrCmpTransitive(a: Title, b: Title, c: Title)
    requires StrCmp(a, b) <= 0 && StrCmp(b, c) <= 0
    ensures StrCmp(a, c) <= 0
  {
    if a != [] && b != [] && c != [] && a[0] == b[0] == c[0] {
      StrCmpTransitive(a[1..], b[1..], c[1..]);
    }
  }

  lemma {:induction false} ShippedKeyIsSound()
    ensures Sound(KEY) && KEY[0] == '\t'
  {
  }

  /** The end of one title against a longer one: key[j..] is what is left of the shorter
      title's key, `rest` what is left of the longer title before its own key. */
  lemma {:induction false} KeyAgainstRest(key: Title, j: nat, rest: Title)
    requires Sound(key) && j <= |key| && (j > 0 || rest != [])
    ensures StrCmp(key[j..], rest + key) == (if StrCmp(rest, key[j..]) < 0 then 1 else -1)
    decreases |rest|
  {
    if j == |key| {
    } else if rest == [] {
      assert rest + key == key;
    } else {
      assert (rest + key)[1..] == rest[1..] + key;
      assert key[j..][1..] == key[j + 1..];
      KeyAgainstRest(key, j + 1, rest[1..]);
    }
  }

  lemma {:induction false} SecretOnEmptyTitle(key: Title, b: Title)
    requires Sound(key) && b != []
    ensures StrCmp(AddSecret(key, []), AddSecret(key, b)) == (if StrCmp(b, key) < 0 then 1 else -1)
    ensures StrCmp(AddSecret(key, b), AddSecret(key, [])) == (if StrCmp(b, key) < 0 then -1 else 1)
    ensures Inverts(key, [], b) <==> StrCmp(b, key) < 0
  {
    KeyAgainstRest(key, 0, b);
    assert AddSecret(key, []) == key[0..] == key;
    assert b[0..] == b;
    StrCmpSign(AddSecret(key, []), AddSecret(key, b));
  }

  /** A sound key leaves the order of two titles alone if and only if neither inverts the
      other. */
  lemma {:induction false} SecretKeepsOrderIff(key: Title, a: Title, b: Title)
    requires Sound(key)
    ensures StrCmp(AddSecret(key, a), AddSecret(key, b)) == StrCmp(a, b)
            <==> !Inverts(key, a, b) && !Inverts(key, b, a)
  {
    if a == b {
      StrCmpSign(AddSecret(key, a), AddSecret(key, b));
      StrCmpSign(a, b);
    } else if a == [] {
      SecretOnEmptyTitle(key, b);
    } else if b == [] {
      SecretOnEmptyTitle(key, a);
    } else if a[0] == b[0] {
      assert AddSecret(key, a)[1..] == AddSecret(key, a[1..]);
      assert AddSecret(key, b)[1..] == AddSecret(key, b[1..]);
      SecretKeepsOrderIff(key, a[1..], b[1..]);
      InvertsTail(key, a, b);
      InvertsTail(key, b, a);
    }
  }

  lemma {:induction false} InvertsTail(key: Title, a: Title, b: Title)
    requires a != [] && b != [] && a[0] == b[0]
    ensures Inverts(key, a, b) <==> Inverts(key, a[1..], b[1..])
  {
    if |a| < |b| {
      assert b[|a|..] == b[1..][|a| - 1..];
      assert b[1..][..|a| - 1] == b[..|a|][1..];
      assert a == [a[0]] + a[1..];
      assert b[..|a|] == [b[0]] + b[..|a|][1..];
    }
  }

  /** Titles all of whose bytes lie above the key's first, the tab in the shipped library,
      never invert one another. */
  lemma {:induction false} PrintableNeverInverts(key: Title, a: Title, b: Title)
    requires key != [] && forall i :: 0 <= i < |b| ==> b[i] > key[0]
    ensures !Inverts(key, a, b)
  {
    if |a| < |b| {
      assert b[|a|..][0] == b[|a|];
    }
  }

  /** Without that the key can turn the order round: "A" sorts before "A\u0001", but after it
      once both carry the key. */
  lemma {:induction false} SecretCanInvert()
    ensures StrCmp("A", ['A', 1 as char]) < 0 < StrCmp(AddSecret(KEY, "A"), AddSecret(KEY, ['A', 1 as char]))
  {
    var a, b := "A", ['A', 1 as char];
    assert a[1..] == [] && b[1..] == [1 as char];
    assert AddSecret(KEY, a)[1..] == KEY && AddSecret(KEY, b)[1..] == [1 as char] + KEY;
    assert StrCmp(AddSecret(KEY, a), AddSecret(KEY, b)) == StrCmp(KEY, [1 as char] + KEY);
  }
}
