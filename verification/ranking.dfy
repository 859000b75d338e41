/**
 * Ordering and grouping of score lists, shared by the server leaderboards,
 * the client's local high-score table and the client's leaderboard screen.
 *
 * Sorting is a stable insertion sort driven by a comparison `le(a, b)`
 * ("a may be placed before b"), which matches the stable `Array.prototype.sort`
 * of the client.  Grouping folds a list left to right into a two-level map
 * song -> difficulty -> bucket, appending to a bucket only while it is
 * shorter than a cap.
 */
module Ranking {
  import opened Common

  /** `le` is total and transitive: any two elements can be ordered consistently. */
  ghost predicate TotalPreorder<T(!new)>(le: (T, T) -> bool) {
    && (forall a, b :: le(a, b) || le(b, a))
    && (forall a, b, c :: le(a, b) && le(b, c) ==> le(a, c))
  }

  /** Every earlier element may be placed before every later one. */
  ghost predicate SortedBy<T>(s: seq<T>, le: (T, T) -> bool) {
    forall i, j :: 0 <= i < j < |s| ==> le(s[i], s[j])
  }

  /** Inserts `x` after the last element it may follow, keeping equal elements in arrival order. */
  function InsertBy<T>(s: seq<T>, x: T, le: (T, T) -> bool): (r: seq<T>)
    ensures |r| == |s| + 1
    ensures multiset(r) == multiset(s) + multiset{x}
    decreases |s|
  {
    if |s| == 0 then [x]
    else if le(s[|s| - 1], x) then s + [x]
    else
      var rest := InsertBy(s[..|s| - 1], x, le);
      assert s == s[..|s| - 1] + [s[|s| - 1]];
      rest + [s[|s| - 1]]
  }

  /** Stable insertion sort: the functional reading of `Array.prototype.sort` with a comparator. */
  function SortBy<T>(xs: seq<T>, le: (T, T) -> bool): (r: seq<T>)
    ensures |r| == |xs|
    ensures multiset(r) == multiset(xs)
    decreases |xs|
  {
    if |xs| == 0 then []
    else
      assert xs == xs[..|xs| - 1] + [xs[|xs| - 1]];
      InsertBy(SortBy(xs[..|xs| - 1], le), xs[|xs| - 1], le)
  }

  /** The first `n` elements, or all of them when there are fewer: `slice(0, n)`. */
  function Take<T>(s: seq<T>, n: nat): (r: seq<T>)
    ensures |r| == Min(n, |s|)
    ensures r <= s
    ensures multiset(r) <= multiset(s)
  {
    assert s == s[..Min(n, |s|)] + s[Min(n, |s|)..];
    s[..Min(n, |s|)]
  }

  lemma {:induction false} InsertBySorted<T(!new)>(s: seq<T>, x: T, le: (T, T) -> bool)
    requires TotalPreorder(le)
    requires SortedBy(s, le)
    ensures SortedBy(InsertBy(s, x, le), le)
    decreases |s|
  {
    if |s| == 0 {
    } else if le(s[|s| - 1], x) {
      var r := s + [x];
      forall i, j | 0 <= i < j < |r| ensures le(r[i], r[j]) {
        if j == |s| && i < |s| - 1 {
          assert le(s[i], s[|s| - 1]);
        }
      }
    } else {
      var init := s[..|s| - 1];
      var last := s[|s| - 1];
      var rest := InsertBy(init, x, le);
      InsertBySorted(init, x, le);
      assert le(x, last);
      forall y | y in rest ensures le(y, last) {
        assert y in multiset(rest);
        if y != x {
          assert y in multiset(init);
          var k :| 0 <= k < |init| && init[k] == y;
          assert le(s[k], s[|s| - 1]);
        }
      }
      var r := rest + [last];
      forall i, j | 0 <= i < j < |r| ensures le(r[i], r[j]) {
        if j == |rest| {
          assert r[i] in rest;
        }
      }
    }
  }

  /** The result of `SortBy` is ordered whenever the comparison is a total preorder. */
  lemma {:induction false} SortBySorted<T(!new)>(xs: seq<T>, le: (T, T) -> bool)
    requires TotalPreorder(le)
    ensures SortedBy(SortBy(xs, le), le)
    decreases |xs|
  {
    if |xs| > 0 {
      SortBySorted(xs[..|xs| - 1], le);
      InsertBySorted(SortBy(xs[..|xs| - 1], le), xs[|xs| - 1], le);
    }
  }

  /**
   * Cutting an ordered list after `k` elements keeps the best ones: every kept
   * element may be placed before every dropped one.
   */
  lemma TakeKeepsBest<T>(sorted: seq<T>, k: nat, le: (T, T) -> bool)
    requires SortedBy(sorted, le)
    ensures SortedBy(Take(sorted, k), le)
    ensures forall x, y :: x in Take(sorted, k) && y in multiset(sorted) - multiset(Take(sorted, k)) ==> le(x, y)
  {
    var n := Min(k, |sorted|);
    var kept, dropped := sorted[..n], sorted[n..];
    assert sorted == kept + dropped;
    forall x, y | x in kept && y in multiset(sorted) - multiset(kept) ensures le(x, y) {
      assert multiset(sorted)[y] == multiset(kept)[y] + multiset(dropped)[y];
      assert y in multiset(dropped);
      var i :| 0 <= i < |kept| && kept[i] == x;
      var j :| 0 <= j < |dropped| && dropped[j] == y;
      assert sorted[i] == x && sorted[n + j] == y;
    }
  }

  /** An element of an ordered list missing from its first `k` shows that `k` were kept, all placed before it. */
  lemma TakeLeavesOut<T>(sorted: seq<T>, k: nat, le: (T, T) -> bool, y: T)
    requires SortedBy(sorted, le)
    requires y in sorted && y !in Take(sorted, k)
    ensures |Take(sorted, k)| == k
    ensures forall x :: x in Take(sorted, k) ==> le(x, y)
  {
    var t := Take(sorted, k);
    var j :| 0 <= j < |sorted| && sorted[j] == y;
    assert forall i :: 0 <= i < |t| ==> t[i] == sorted[i] != y;
    assert j >= |t|;
    forall x | x in t ensures le(x, y) {
      var i :| 0 <= i < |t| && t[i] == x;
      assert sorted[i] == x;
    }
  }

  /**
   * The first `k` of a sorted copy are the best `k`: they are ordered, come from the
   * input, and anything left out follows each of them and is left out only when `k` are kept.
   */
  lemma TakeSortedIsTop<T(!new)>(xs: seq<T>, k: nat, le: (T, T) -> bool)
    requires TotalPreorder(le)
    ensures var r := Take(SortBy(xs, le), k);
      && SortedBy(r, le)
      && multiset(r) <= multiset(xs)
      && (forall x :: x in r ==> x in xs)
      && (forall y :: y in xs && y !in r ==> |r| == k && forall x :: x in r ==> le(x, y))
      && (|xs| <= k ==> forall y :: y in xs ==> y in r)
  {
    var sorted := SortBy(xs, le);
    SortBySorted(xs, le);
    TakeKeepsBest(sorted, k, le);
    var r := Take(sorted, k);
    forall x | x in r ensures x in xs {
      assert x in sorted;
      assert x in multiset(sorted);
    }
    forall y | y in xs && y !in r
      ensures |r| == k && forall x :: x in r ==> le(x, y)
    {
      assert y in multiset(sorted);
      TakeLeavesOut(sorted, k, le, y);
    }
    if |xs| <= k {
      assert r == sorted;
      forall y | y in xs ensures y in r {
        assert y in multiset(sorted);
      }
    }
  }

  // ---------------------------------------------------------------------------
  // Grouping by song and difficulty
  // ---------------------------------------------------------------------------

  /** song title -> difficulty name -> bucket of entries. */
  type Buckets<T> = map<string, map<string, seq<T>>>

  /** The entries of `xs` that belong to the bucket (s, d), in their original order. */
  function Matching<T>(xs: seq<T>, song: T -> string, difficulty: T -> string, s: string, d: string): (r: seq<T>)
    ensures multiset(r) <= multiset(xs)
    ensures forall x :: x in r ==> x in xs && song(x) == s && difficulty(x) == d
    ensures forall x :: x in xs && song(x) == s && difficulty(x) == d ==> x in r
    decreases |xs|
  {
    if |xs| == 0 then []
    else
      var last := xs[|xs| - 1];
      var m := Matching(xs[..|xs| - 1], song, difficulty, s, d);
      assert xs == xs[..|xs| - 1] + [last];
      if song(last) == s && difficulty(last) == d then m + [last] else m
  }

  /** One step of the grouping fold: create the buckets on demand, append while under the cap. */
  function Push<T>(g: Buckets<T>, x: T, song: T -> string, difficulty: T -> string, cap: nat): Buckets<T> {
    var s, d := song(x), difficulty(x);
    var inner := if s in g then g[s] else map[];
    var bucket := if d in inner then inner[d] else [];
    g[s := inner[d := if |bucket| < cap then bucket + [x] else bucket]]
  }

  /** The grouping fold over `xs` from left to right. */
  function Group<T>(xs: seq<T>, song: T -> string, difficulty: T -> string, cap: nat): Buckets<T>
    decreases |xs|
  {
    if |xs| == 0 then map[]
    else Push(Group(xs[..|xs| - 1], song, difficulty, cap), xs[|xs| - 1], song, difficulty, cap)
  }

  /** How one fold step changes the bucket (s, d). */
  lemma PushLookup<T>(g: Buckets<T>, x: T, song: T -> string, difficulty: T -> string, cap: nat, s: string, d: string)
    ensures var g' := Push(g, x, song, difficulty, cap);
      (song(x) != s || difficulty(x) != d) ==>
        && ((s in g' && d in g'[s]) <==> (s in g && d in g[s]))
        && (s in g && d in g[s] ==> g'[s][d] == g[s][d])
    ensures var g' := Push(g, x, song, difficulty, cap);
      var b := if s in g && d in g[s] then g[s][d] else [];
      (song(x) == s && difficulty(x) == d) ==>
        s in g' && d in g'[s] && g'[s][d] == (if |b| < cap then b + [x] else b)
  {
  }

  /** Appending to a list extends its capped prefix only while the prefix is short. */
  lemma TakeAppend<T>(m: seq<T>, x: T, cap: nat)
    ensures Take(m + [x], cap) == if |Take(m, cap)| < cap then Take(m, cap) + [x] else Take(m, cap)
  {
    if |m| < cap {
      assert Take(m + [x], cap) == m + [x];
    } else {
      assert Take(m + [x], cap) == m[..cap];
    }
  }

  /**
   * The bucket (s, d) exists exactly when some entry has that song and difficulty,
   * and then holds the first `cap` such entries in input order.
   */
  lemma {:induction false} GroupBucket<T>(xs: seq<T>, song: T -> string, difficulty: T -> string, cap: nat, s: string, d: string)
    ensures var g := Group(xs, song, difficulty, cap);
      (s in g && d in g[s]) <==> |Matching(xs, song, difficulty, s, d)| > 0
    ensures var g := Group(xs, song, difficulty, cap);
      s in g && d in g[s] ==> g[s][d] == Take(Matching(xs, song, difficulty, s, d), cap)
    decreases |xs|
  {
    if |xs| > 0 {
      var init, x := xs[..|xs| - 1], xs[|xs| - 1];
      GroupBucket(init, song, difficulty, cap, s, d);
      var g0 := Group(init, song, difficulty, cap);
      assert Group(xs, song, difficulty, cap) == Push(g0, x, song, difficulty, cap);
      PushLookup(g0, x, song, difficulty, cap, s, d);
      var m0 := Matching(init, song, difficulty, s, d);
      if song(x) == s && difficulty(x) == d {
        assert Matching(xs, song, difficulty, s, d) == m0 + [x];
        TakeAppend(m0, x, cap);
      } else {
        assert Matching(xs, song, difficulty, s, d) == m0;
      }
    }
  }

  /** A song appears in the grouping exactly when some entry is for that song. */
  lemma {:induction false} GroupSongs<T>(xs: seq<T>, song: T -> string, difficulty: T -> string, cap: nat, s: string)
    ensures s in Group(xs, song, difficulty, cap) <==> exists x :: x in xs && song(x) == s
    decreases |xs|
  {
    if |xs| > 0 {
      var init, x := xs[..|xs| - 1], xs[|xs| - 1];
      GroupSongs(init, song, difficulty, cap, s);
      assert xs == init + [x];
      if s !in Group(xs, song, difficulty, cap) {
        forall y | y in xs ensures song(y) != s {
          if y != x {
            assert y in init;
          }
        }
      }
    }
  }

  /** An ordered list stays ordered when filtered to one bucket. */
  lemma {:induction false} MatchingSorted<T>(xs: seq<T>, song: T -> string, difficulty: T -> string, s: string, d: string, le: (T, T) -> bool)
    requires SortedBy(xs, le)
    ensures SortedBy(Matching(xs, song, difficulty, s, d), le)
    decreases |xs|
  {
    if |xs| > 0 {
      var init, last := xs[..|xs| - 1], xs[|xs| - 1];
      MatchingSorted(init, song, difficulty, s, d, le);
      var m := Matching(init, song, difficulty, s, d);
      if song(last) == s && difficulty(last) == d {
        var r := m + [last];
        forall i, j | 0 <= i < j < |r| ensures le(r[i], r[j]) {
          if j == |m| {
            assert r[i] in multiset(init);
            var k :| 0 <= k < |init| && init[k] == r[i];
            assert xs[k] == r[i] && xs[|xs| - 1] == last;
          }
        }
      }
    }
  }

  /**
   * Grouping an ordered list yields ordered buckets of at most `cap` entries,
   * each of which is the best `cap` of its group.
   */
  lemma GroupOfSorted<T>(xs: seq<T>, song: T -> string, difficulty: T -> string, cap: nat, le: (T, T) -> bool, s: string, d: string)
    requires SortedBy(xs, le)
    ensures var g := Group(xs, song, difficulty, cap);
      s in g && d in g[s] ==>
        && |g[s][d]| <= cap
        && SortedBy(g[s][d], le)
        && (forall x :: x in g[s][d] ==> song(x) == s && difficulty(x) == d)
        && (forall x, y :: x in g[s][d] && y in multiset(Matching(xs, song, difficulty, s, d)) - multiset(g[s][d]) ==> le(x, y))
  {
    GroupBucket(xs, song, difficulty, cap, s, d);
    var m := Matching(xs, song, difficulty, s, d);
    MatchingSorted(xs, song, difficulty, s, d, le);
    TakeKeepsBest(m, cap, le);
  }

  /** No entry is counted in two different buckets. */
  lemma GroupDisjoint<T>(xs: seq<T>, song: T -> string, difficulty: T -> string, cap: nat, x: T,
                         s1: string, d1: string, s2: string, d2: string)
    requires var g := Group(xs, song, difficulty, cap);
      s1 in g && d1 in g[s1] && s2 in g && d2 in g[s2] && x in g[s1][d1] && x in g[s2][d2]
    ensures s1 == s2 && d1 == d2
  {
    BucketMember(xs, song, difficulty, cap, x, s1, d1);
    BucketMember(xs, song, difficulty, cap, x, s2, d2);
  }

  /** Every entry of the bucket (s, d) has song s and difficulty d. */
  lemma BucketMember<T>(xs: seq<T>, song: T -> string, difficulty: T -> string, cap: nat, x: T, s: string, d: string)
    requires var g := Group(xs, song, difficulty, cap); s in g && d in g[s] && x in g[s][d]
    ensures song(x) == s && difficulty(x) == d
  {
    GroupBucket(xs, song, difficulty, cap, s, d);
    var m := Matching(xs, song, difficulty, s, d);
    var t := Take(m, cap);
    var i :| 0 <= i < |t| && t[i] == x;
    assert m[i] == x;
  }

  /**
   * Grouping a sorted list: each bucket is non-empty when the cap is positive, and an
   * entry of the bucket's song and difficulty is left out only when the bucket is full
   * and every kept entry may precede it.
   */
  lemma GroupOfSortedIsTop<T(!new)>(xs: seq<T>, song: T -> string, difficulty: T -> string, cap: nat, le: (T, T) -> bool, s: string, d: string)
    requires SortedBy(xs, le)
    ensures var g := Group(xs, song, difficulty, cap);
      s in g && d in g[s] ==>
        && (cap > 0 ==> |g[s][d]| > 0)
        && (forall y :: y in xs && song(y) == s && difficulty(y) == d && y !in g[s][d] ==>
              |g[s][d]| == cap && forall x :: x in g[s][d] ==> le(x, y))
  {
    var g := Group(xs, song, difficulty, cap);
    GroupBucket(xs, song, difficulty, cap, s, d);
    if s in g && d in g[s] {
      var m := Matching(xs, song, difficulty, s, d);
      MatchingSorted(xs, song, difficulty, s, d, le);
      forall y | y in xs && song(y) == s && difficulty(y) == d && y !in g[s][d]
        ensures |g[s][d]| == cap && forall x :: x in g[s][d] ==> le(x, y)
      {
        TakeLeavesOut(m, cap, le, y);
      }
    }
  }

  /**
   * Everything a reader of one bucket of a sorted grouping relies on: it is the first
   * `cap` matching entries, non-empty for a positive cap, ordered, and no matching
   * entry left out may precede a kept one unless the bucket is full.
   */
  lemma GroupTop<T(!new)>(xs: seq<T>, song: T -> string, difficulty: T -> string, cap: nat, le: (T, T) -> bool,
                          s: string, d: string, b: seq<T>)
    requires SortedBy(xs, le)
    requires var g := Group(xs, song, difficulty, cap); s in g && d in g[s] && b == g[s][d]
    ensures b == Take(Matching(xs, song, difficulty, s, d), cap)
    ensures |b| <= cap && (cap > 0 ==> |b| > 0)
    ensures forall x :: x in b ==> x in xs && song(x) == s && difficulty(x) == d
    ensures SortedBy(b, le)
    ensures forall y :: y in xs && song(y) == s && difficulty(y) == d && y !in b ==>
              |b| == cap && forall x :: x in b ==> le(x, y)
  {
    var m := Matching(xs, song, difficulty, s, d);
    GroupBucket(xs, song, difficulty, cap, s, d);
    GroupOfSorted(xs, song, difficulty, cap, le, s, d);
    GroupOfSortedIsTop(xs, song, difficulty, cap, le, s, d);
    forall x | x in b ensures x in xs {
      assert x in m;
    }
  }
}
