/** One request from its filter to its lines of output. */
module Requests {
  import opened Titles
  import opened Ranking
  import opened Selection
  import opened SortTree
  import opened MovieData

  const MAX_MOVIES: nat := 70000
  const NUM_OF_GENRE: nat := 19

  datatype Movie = Movie(title: Title, profile: seq<real>)
  datatype Request = Request(keywords: Title, profile: seq<real>)

  predicate Profiled(p: seq<real>) { |p| == NUM_OF_GENRE }

  predicate AllProfiled(movies: seq<Movie>) {
    forall m :: m in movies ==> Profiled(m.profile)
  }

  /** `k` occurs in `t` (strstr, section 7.24.5.7 of ISO C11). */
  predicate Contains(t: Title, k: Title) {
    exists i :: 0 <= i <= |t| - |k| && k <= t[i..]
  }

  predicate Matches(m: Movie, req: Request) {
    req.keywords == "*" || Contains(m.title, req.keywords)
  }

  /** The dot product of two profiles. */
  function Dot(p: seq<real>, q: seq<real>): real
    requires |p| == |q|
  {
    if p == [] then 0.0 else Dot(p[..|p| - 1], q[..|q| - 1]) + p[|p| - 1] * q[|q| - 1]
  }

  function Added(p: seq<real>, q: seq<real>): seq<real>
    requires |p| == |q|
  {
    seq(|p|, i requires 0 <= i < |p| => p[i] + q[i])
  }

  function Scaled(c: real, p: seq<real>): seq<real> { seq(|p|, i requires 0 <= i < |p| => c * p[i]) }

  /** The profile of n genres that has weight 1 on genre i alone. */
  function UnitProfile(n: nat, i: nat): seq<real> { seq(n, k => if k == i then 1.0 else 0.0) }

  // These laws leave only one product of profiles.

  lemma {:induction false} DotSymmetric(p: seq<real>, q: seq<real>)
    requires |p| == |q|
    ensures Dot(p, q) == Dot(q, p)
  {
    if p != [] { DotSymmetric(p[..|p| - 1], q[..|q| - 1]); }
  }

  lemma {:induction false} DotAdditive(p: seq<real>, p': seq<real>, q: seq<real>)
    requires |p| == |p'| == |q|
    ensures Dot(Added(p, p'), q) == Dot(p, q) + Dot(p', q)
  {
    if p != [] {
      var n := |p| - 1;
      DotAdditive(p[..n], p'[..n], q[..n]);
      assert Added(p, p')[..n] == Added(p[..n], p'[..n]);
      Distributes(p[n], p'[n], q[n]);
    }
  }

  lemma {:induction false} Distributes(a: real, b: real, c: real)
    ensures (a + b) * c == a * c + b * c && c * (a + b) == c * a + c * b
  {
  }

  lemma {:induction false} DotHomogeneous(c: real, p: seq<real>, q: seq<real>)
    requires |p| == |q|
    ensures Dot(Scaled(c, p), q) == c * Dot(p, q)
  {
    if p != [] {
      var n := |p| - 1;
      DotHomogeneous(c, p[..n], q[..n]);
      ScaledFront(c, p, n);
      ScaledSummand(c, Dot(p[..n], q[..n]), p[n], q[n]);
    }
  }

  lemma {:induction false} ScaledFront(c: real, p: seq<real>, n: nat)
    requires n <= |p|
    ensures Scaled(c, p)[..n] == Scaled(c, p[..n])
  {
    var a, b := Scaled(c, p)[..n], Scaled(c, p[..n]);
    forall i | 0 <= i < n ensures a[i] == b[i] { assert p[..n][i] == p[i]; }
    assert |a| == |b|;
  }

  lemma {:induction false} ScaledSummand(c: real, sum: real, a: real, b: real)
    ensures c * sum + (c * a) * b == c * (sum + a * b)
  {
  }

  lemma {:induction false} DotUnits(n: nat, i: nat, j: nat)
    ensures Dot(UnitProfile(n, i), UnitProfile(n, j)) == if i == j && i < n then 1.0 else 0.0
  {
    if n > 0 {
      DotUnits(n - 1, i, j);
      assert UnitProfile(n, i)[..n - 1] == UnitProfile(n - 1, i) && UnitProfile(n, j)[..n - 1] == UnitProfile(n - 1, j);
    }
  }

  method Cross(p1: seq<real>, p2: seq<real>) returns (sum: real)
    requires Profiled(p1) && Profiled(p2)
    ensures sum == Dot(p1, p2)
  {
    sum := 0.0;
    for i := 0 to NUM_OF_GENRE
      invariant sum == Dot(p1[..i], p2[..i])
    {
      assert p1[..i + 1][..i] == p1[..i] && p2[..i + 1][..i] == p2[..i];
      sum := sum + p1[i] * p2[i];
    }
    assert p1[..NUM_OF_GENRE] == p1 && p2[..NUM_OF_GENRE] == p2;
  }

  /** The matching movies with their scores, each as often as it is in the list. */
  function Matching(movies: seq<Movie>, req: Request): (r: seq<Entry>)
    requires Profiled(req.profile) && AllProfiled(movies)
    ensures |r| <= |movies|
  {
    if movies == [] then []
    else
      var m := movies[|movies| - 1];
      assert m in movies && Profiled(m.profile);
      Matching(movies[..|movies| - 1], req) + if Matches(m, req) then [Entry(Dot(m.profile, req.profile), m.title)] else []
  }

  /** The keyword occurs between some beginning and some end of the title, or is the star. */
  lemma {:induction false} MatchesIff(m: Movie, req: Request)
    ensures Matches(m, req) <==> req.keywords == "*" || exists front, back :: m.title == front + req.keywords + back
  {
    if i :| 0 <= i <= |m.title| - |req.keywords| && req.keywords <= m.title[i..] {
      assert m.title == m.title[..i] + req.keywords + m.title[i..][|req.keywords|..];
    }
    if front, back :| m.title == front + req.keywords + back {
      assert m.title[|front|..] == req.keywords + back;
    }
  }

  /** The k-th entry scores movie number `at[k]`; `at` lists the matching movies in their order. */
  ghost predicate Lists(movies: seq<Movie>, req: Request, entries: seq<Entry>, at: seq<nat>)
    requires Profiled(req.profile) && AllProfiled(movies)
  {
    && |at| == |entries|
    && (forall k :: 0 <= k < |at| ==> at[k] < |movies| && entries[k].title == movies[at[k]].title
                                      && entries[k].score == Dot(movies[at[k]].profile, req.profile))
    && (forall j, k :: 0 <= j < k < |at| ==> at[j] < at[k])
    && (forall i :: 0 <= i < |movies| ==> (i in at <==> Matches(movies[i], req)))
  }

  /** The entries of a request are those of the matching movies, each once, in list order. */
  lemma {:induction false} MatchingLists(movies: seq<Movie>, req: Request) returns (at: seq<nat>)
    requires Profiled(req.profile) && AllProfiled(movies)
    ensures Lists(movies, req, Matching(movies, req), at)
  {
    if movies == [] {
      at := [];
    } else {
      var n := |movies| - 1;
      var front := MatchingLists(movies[..n], req);
      assert movies[n] in movies;
      at := if Matches(movies[n], req) then front + [n] else front;
      OneMoreListed(movies, req, Matching(movies[..n], req), front);
    }
  }

  lemma {:induction false} OneMoreListed(movies: seq<Movie>, req: Request, entries: seq<Entry>, at: seq<nat>)
    requires Profiled(req.profile) && AllProfiled(movies) && movies != [] && movies[|movies| - 1] in movies
    requires Lists(movies[..|movies| - 1], req, entries, at)
    ensures var n := |movies| - 1;
      if Matches(movies[n], req)
      then Lists(movies, req, entries + [Entry(Dot(movies[n].profile, req.profile), movies[n].title)], at + [n])
      else Lists(movies, req, entries, at)
  {
    var n := |movies| - 1;
    assert forall i :: 0 <= i < n ==> movies[..n][i] == movies[i];
    assert n !in at;
    assert forall i :: i in at + [n] <==> i in at || i == n;
  }

  function TitlesOf(s: seq<Entry>): (r: seq<Title>)
    ensures |r| == |s|
  {
    seq(|s|, i requires 0 <= i < |s| => s[i].title)
  }

  /** The THREAD build's `deal_request`. It is aborted exactly when a leaf of the sort sees two
      negative scores, and otherwise writes the titles that the recursion leaves of the matching
      movies. */
  method DealRequest(key: Title, movies: seq<Movie>, req: Request) returns (ok: bool, lines: seq<Title>)
    requires Profiled(req.profile) && |movies| <= MAX_MOVIES && AllProfiled(movies)
    ensures ok <==> LeavesFine(THREAD, 0, Matching(movies, req))
    ensures ok ==> lines == TitlesOf(DecorateAll(key, Tree(key, THREAD, 0, Matching(movies, req))))
  {
    var data := new Data(key, MAX_MOVIES);
    var len := FillAll(movies, req, data);
    ghost var s := Matching(movies, req);
    lines := [];
    var r: int := len as int - 1;
    ok := data.MergeSort(0, r, 0, s);
    if !ok { return; }
    ghost var v := data.mem[0..len];
    ThreadsDeliver(key, s, v);
    for i := 0 to len
      invariant data.Valid() && data.mem[0..len] == v
      invariant lines == TitlesOf(v)[..i]
    {
      assert v[i] == data.mem[i];
      lines := lines + [data.names[i]];
    }
  }

  /** The filter loop. */
  method FillAll(movies: seq<Movie>, req: Request, data: Data) returns (len: nat)
    requires Profiled(req.profile) && |movies| <= MAX_MOVIES && AllProfiled(movies)
    requires data.Valid() && |data.mem| == MAX_MOVIES
    modifies data, data.names, data.score
    ensures data.Valid() && |data.mem| == MAX_MOVIES
    ensures len == |Matching(movies, req)| && data.mem[0..len] == Matching(movies, req)
  {
    len := 0;
    for i := 0 to |movies|
      invariant data.Valid() && |data.mem| == MAX_MOVIES
      invariant len == |Matching(movies[..i], req)| <= i && data.mem[0..len] == Matching(movies[..i], req)
    {
      assert movies[..i + 1][..i] == movies[..i];
      if Matches(movies[i], req) {
        var points := Cross(movies[i].profile, req.profile);
        data.Fill(len, points, movies[i].title);
        assert data.mem[0..len + 1] == Matching(movies[..i], req) + [Entry(points, movies[i].title)];
        len := len + 1;
      }
    }
    assert movies[..|movies|] == movies;
  }

  /** What a request writes lists every matching movie once, each with one key after its title, by
      falling score and then rising plain title, if and only if no leaf holds two negative scores
      and nothing crosses at a merge. */
  lemma {:induction false} LinesRankedIff(key: Title, b: Build, s: seq<Entry>)
    requires Sound(key) && (key != [] || LeavesFine(b, 0, s))
    ensures LinesRanked(key, s, TitlesOf(Result(key, b, 0, s))) <==> LeavesFine(b, 0, s) && Uncrossed(key, b, 0, s)
  {
    if LeavesFine(b, 0, s) {
      ResultIsTreeIff(key, b, 0, s);
      TreeLinesRankedIff(key, b, s);
    } else {
      var v := Result(key, b, 0, s);
      if r :| multiset(r) == multiset(s) && Sorted(r) && LinesFor(key, r, TitlesOf(v)) {
        BytesOfLines(key, r, v);
        BytesDecorated(key, r);
        KeysMeanFine(key, b, 0, s, r);
      }
    }
  }

  /** Under the key of the shipped library. */
  lemma {:induction false} ShippedLinesRankedIff(b: Build, s: seq<Entry>)
    ensures LinesRanked(KEY, s, TitlesOf(Result(KEY, b, 0, s))) <==> LeavesFine(b, 0, s) && Uncrossed(KEY, b, 0, s)
  {
    ShippedKeyIsSound();
    LinesRankedIff(KEY, b, s);
  }

  lemma {:induction false} BytesOfLines(key: Title, r: seq<Entry>, v: seq<Entry>)
    requires LinesFor(key, r, TitlesOf(v))
    ensures Bytes(0, v) == Bytes(|key|, r)
    decreases r
  {
    if r != [] {
      var lines := TitlesOf(v);
      assert lines[0] == r[0].title + key;
      assert TitlesOf(v[1..]) == lines[1..];
      BytesOfLines(key, r[1..], v[1..]);
    }
  }

  lemma {:induction false} TreeLinesRankedIff(key: Title, b: Build, s: seq<Entry>)
    requires Sound(key)
    ensures LinesRanked(key, s, TitlesOf(DecorateAll(key, Tree(key, b, 0, s)))) <==> Uncrossed(key, b, 0, s)
  {
    TreeRanksIff(key, b, 0, s);
    var t := Tree(key, b, 0, s);
    TreePermutes(key, b, 0, s, t);
    TreeByScore(key, b, 0, s, t);
    LinesOfTree(key, s, t);
  }

  /** The two builds write the same lines if and only if both write the ranking, provided that one of
      them does; the THREAD build does so on every request that it sorts as one leaf. */
  lemma {:induction false} LinesAgreeIff(key: Title, s: seq<Entry>)
    requires Sound(key) && LeavesFine(THREAD, 0, s) && LeavesFine(PROCESS, 0, s)
    requires |s| <= SIZE_LIMIT || Uncrossed(key, THREAD, 0, s) || Uncrossed(key, PROCESS, 0, s)
    ensures TitlesOf(Result(key, THREAD, 0, s)) == TitlesOf(Result(key, PROCESS, 0, s))
      <==> Uncrossed(key, THREAD, 0, s) && Uncrossed(key, PROCESS, 0, s)
    ensures |s| <= SIZE_LIMIT ==> Uncrossed(key, THREAD, 0, s)
  {
    LinesRankedIff(key, THREAD, s);
    LinesRankedIff(key, PROCESS, s);
    ResultRanksIff(key, THREAD, 0, s);
    ResultRanksIff(key, PROCESS, 0, s);
  }

  /** Two movies that the shipped library's key turns round, if a merge compares them. */
  const PAIR: seq<Entry> := [Entry(1.0, "A"), Entry(1.0, ['A', 1 as char])]

  /** On these two movies the PROCESS build, which merges them, does not write the ranking by plain
      titles; the THREAD build, which does not, does: the two builds write different lines. */
  lemma {:induction false} BuildsCanDiffer()
    ensures LeavesFine(THREAD, 0, PAIR) && LeavesFine(PROCESS, 0, PAIR)
    ensures Uncrossed(KEY, THREAD, 0, PAIR) && !Uncrossed(KEY, PROCESS, 0, PAIR)
    ensures LinesRanked(KEY, PAIR, TitlesOf(Result(KEY, THREAD, 0, PAIR)))
    ensures !LinesRanked(KEY, PAIR, TitlesOf(Result(KEY, PROCESS, 0, PAIR)))
    ensures Tree(KEY, THREAD, 0, PAIR) != Tree(KEY, PROCESS, 0, PAIR)
  {
    var a, b := Entry(1.0, "A"), Entry(1.0, ['A', 1 as char]);
    assert PAIR == [a] + [b];
    NonNegativeLeaves(THREAD, 0, PAIR);
    NonNegativeLeaves(PROCESS, 0, PAIR);
    UncrossedNode(KEY, PROCESS, 0, [a], [b]);
    assert b.title[1..] == [1 as char] && b.title[..1] == a.title;
    assert Inverts(KEY, a.title, b.title);
    assert a in [a] && b in [b] && !Uncross(KEY, [a], a, b);
    ShippedLinesRankedIff(THREAD, PAIR);
    ShippedLinesRankedIff(PROCESS, PAIR);
    ResultIsTreeIff(KEY, THREAD, 0, PAIR);
    ResultIsTreeIff(KEY, PROCESS, 0, PAIR);
  }

  lemma {:induction false} LinesOfTree(key: Title, s: seq<Entry>, t: seq<Entry>)
    requires multiset(t) == multiset(s) && ByScore(t)
    ensures LinesRanked(key, s, TitlesOf(DecorateAll(key, t))) <==> t == Ranked(s)
  {
    var lines := TitlesOf(DecorateAll(key, t));
    RankedSorts(s);
    assert LinesFor(key, t, lines);
    if r :| multiset(r) == multiset(s) && Sorted(r) && LinesFor(key, r, lines) {
      SortedPermutationIsRanked(r, s);
      SortedByScore(r);
      SameLines(key, r, t, lines);
    }
  }

  lemma {:induction false} SameFirst(key: Title, r: seq<Entry>, t: seq<Entry>, line: Title)
    requires multiset(r) == multiset(t) && ByScore(r) && ByScore(t) && r != [] && t != []
    requires line == r[0].title + key == t[0].title + key
    ensures r[0] == t[0]
  {
    assert r[0] in multiset(t) && t[0] in multiset(r);
    var i :| 0 <= i < |t| && t[i] == r[0];
    var j :| 0 <= j < |r| && r[j] == t[0];
    assert r[0].title == line[..|line| - |key|] == t[0].title;
  }

  /** Lines and falling scores determine the entries. */
  lemma {:induction false} SameLines(key: Title, r: seq<Entry>, t: seq<Entry>, lines: seq<Title>)
    requires multiset(r) == multiset(t) && ByScore(r) && ByScore(t) && LinesFor(key, r, lines) && LinesFor(key, t, lines)
    ensures r == t
    decreases r
  {
    if r != [] {
      assert |multiset(r)| == |multiset(t)|;
      SameFirst(key, r, t, lines[0]);
      TailMultiset(r);
      TailMultiset(t);
      SameLines(key, r[1..], t[1..], lines[1..]);
      assert r == [r[0]] + r[1..] && t == [t[0]] + t[1..];
    }
  }

  ghost predicate LinesRanked(key: Title, s: seq<Entry>, lines: seq<Title>) {
    exists r :: multiset(r) == multiset(s) && Sorted(r) && LinesFor(key, r, lines)
  }

  predicate LinesFor(key: Title, r: seq<Entry>, lines: seq<Title>) {
    |lines| == |r| && forall i :: 0 <= i < |r| ==> lines[i] == r[i].title + key
  }

  predicate NonNegative(p: seq<real>) {
    forall i :: 0 <= i < |p| ==> p[i] >= 0.0
  }

  lemma {:induction false} DotNonNegative(p: seq<real>, q: seq<real>)
    requires |p| == |q| && NonNegative(p) && NonNegative(q)
    ensures Dot(p, q) >= 0.0
  {
    if p != [] {
      DotNonNegative(p[..|p| - 1], q[..|q| - 1]);
    }
  }

  /** Profiles without negative weights, and titles whose bytes all lie above the key's first:
      then no request is aborted or loses its order, in either build. */
  lemma {:induction false} OrdinaryRequest(key: Title, b: Build, movies: seq<Movie>, req: Request)
    requires Profiled(req.profile) && NonNegative(req.profile) && AllProfiled(movies)
    requires forall m :: m in movies ==> NonNegative(m.profile) && Above(key, m.title)
    ensures LeavesFine(b, 0, Matching(movies, req)) && Uncrossed(key, b, 0, Matching(movies, req))
  {
    var s := Matching(movies, req);
    forall e | e in s ensures e.score >= 0.0 && Above(key, e.title) { MatchingEntry(key, movies, req, e); }
    NonNegativeLeaves(b, 0, s);
    PrintableUncrossed(key, b, 0, s);
  }

  lemma {:induction false} MatchingEntry(key: Title, movies: seq<Movie>, req: Request, e: Entry)
    requires Profiled(req.profile) && NonNegative(req.profile) && AllProfiled(movies)
    requires forall m :: m in movies ==> NonNegative(m.profile) && Above(key, m.title)
    requires e in Matching(movies, req)
    ensures e.score >= 0.0 && Above(key, e.title)
  {
    if movies != [] {
      var m := movies[|movies| - 1];
      if e in Matching(movies[..|movies| - 1], req) {
        MatchingEntry(key, movies[..|movies| - 1], req, e);
      } else {
        assert m in movies && e == Entry(Dot(m.profile, req.profile), m.title);
        DotNonNegative(m.profile, req.profile);
      }
    }
  }
}
