/**
 * The high-score screen (client/src/components/HighScores.tsx): the stored table is
 * loaded best first, grouped by song and difficulty with at most ten entries per
 * group, songs are listed alphabetically, and only the five known difficulties are
 * shown.  Reading and parsing browser storage is replaced by an optional list.
 */
module HighScores {
  import opened Common
  import opened Ranking
  import Text
  import Game

  /** `loadHighScores()`: nothing stored leaves the list empty; otherwise it is sorted best first. */
  function Load(saved: Option<seq<Game.LocalScore>>): (r: seq<Game.LocalScore>)
    ensures saved.None? ==> r == []
    ensures saved.Some? ==> multiset(r) == multiset(saved.value)
    ensures forall i, j :: 0 <= i < j < |r| ==> r[i].score >= r[j].score
    ensures SortedBy(r, Game.HigherFirst)
  {
    Game.HigherFirstIsTotalPreorder();
    match saved
    case None => []
    case Some(scores) =>
      SortBySorted(scores, Game.HigherFirst);
      SortBy(scores, Game.HigherFirst)
  }

  const GroupSize: nat := 10

  function SongOf(e: Game.LocalScore): string { e.songTitle }
  function DifficultyOf(e: Game.LocalScore): string { e.difficulty }

  /** The `groupedScores` fold over the loaded list. */
  function Grouped(scores: seq<Game.LocalScore>): (g: Buckets<Game.LocalScore>)
    ensures forall s :: s in g ==> exists e :: e in scores && e.songTitle == s
    ensures forall e :: e in scores ==> e.songTitle in g
  {
    forall s ensures s in Group(scores, SongOf, DifficultyOf, GroupSize) <==> exists e :: e in scores && SongOf(e) == s {
      GroupSongs(scores, SongOf, DifficultyOf, GroupSize, s);
    }
    Group(scores, SongOf, DifficultyOf, GroupSize)
  }

  /** Over the loaded list each group is the first ten entries of its song and difficulty. */
  lemma GroupedBuckets(saved: Option<seq<Game.LocalScore>>, s: string, d: string)
    ensures var loaded := Load(saved);
      var g := Grouped(loaded);
      s in g && d in g[s] ==>
        && g[s][d] == Take(Matching(loaded, SongOf, DifficultyOf, s, d), GroupSize)
        && 0 < |g[s][d]| <= GroupSize
        && (forall e :: e in g[s][d] ==> e in loaded && e.songTitle == s && e.difficulty == d)
  {
    var loaded := Load(saved);
    var g := Grouped(loaded);
    if s in g && d in g[s] {
      var b: seq<Game.LocalScore> := g[s][d];
      GroupTop(loaded, SongOf, DifficultyOf, GroupSize, Game.HigherFirst, s, d, b);
    }
  }

  /** Each group is best first, and no entry of its song and difficulty left out beats one kept. */
  lemma GroupedBucketsAreTop(saved: Option<seq<Game.LocalScore>>, s: string, d: string)
    ensures var loaded := Load(saved);
      var g := Grouped(loaded);
      s in g && d in g[s] ==>
        && (forall i, j :: 0 <= i < j < |g[s][d]| ==> g[s][d][i].score >= g[s][d][j].score)
        && (forall e :: e in loaded && e.songTitle == s && e.difficulty == d && e !in g[s][d] ==>
              |g[s][d]| == GroupSize && forall k :: k in g[s][d] ==> k.score >= e.score)
  {
    var loaded := Load(saved);
    var g := Grouped(loaded);
    if s in g && d in g[s] {
      var b: seq<Game.LocalScore> := g[s][d];
      GroupTop(loaded, SongOf, DifficultyOf, GroupSize, Game.HigherFirst, s, d, b);
      forall i: int, j: int | 0 <= i < j < |b| ensures b[i].score >= b[j].score {
        assert Game.HigherFirst(b[i], b[j]);
      }
    }
  }

  /** An entry lands in at most one group. */
  lemma GroupsDisjoint(scores: seq<Game.LocalScore>, e: Game.LocalScore, s1: string, d1: string, s2: string, d2: string)
    requires var g := Grouped(scores);
      s1 in g && d1 in g[s1] && s2 in g && d2 in g[s2] && e in g[s1][d1] && e in g[s2][d2]
    ensures s1 == s2 && d1 == d2
  {
    GroupDisjoint(scores, SongOf, DifficultyOf, GroupSize, e, s1, d1, s2, d2);
  }

  /** The default string order of `Array.prototype.sort`, character by character. */
  lemma LexLeIsTotalPreorder()
    ensures TotalPreorder(Text.LexLe)
  {
    forall a, b ensures Text.LexLe(a, b) || Text.LexLe(b, a) {
      Text.LexLeTotal(a, b);
    }
    forall a, b, c | Text.LexLe(a, b) && Text.LexLe(b, c) ensures Text.LexLe(a, c) {
      Text.LexLeTransitive(a, b, c);
    }
  }

  /** `Object.keys(groupedScores).sort()`: each song with a group once, alphabetically. */
  function Songs(scores: seq<Game.LocalScore>): (r: seq<string>)
    ensures NoDup(r)
    ensures forall s :: s in r <==> s in Grouped(scores)
    ensures forall i, j :: 0 <= i < j < |r| ==> Text.LexLe(r[i], r[j])
  {
    var titles := Dedup(Titles(scores));
    LexLeIsTotalPreorder();
    SortBySorted(titles, Text.LexLe);
    var r := SortBy(titles, Text.LexLe);
    assert forall s :: s in r <==> s in titles by {
      forall s ensures s in r <==> s in titles {
        assert s in r <==> s in multiset(r);
      }
    }
    MultisetNoDup(titles, r);
    r
  }

  /** The song of every entry, in list order: the order in which the fold creates the keys. */
  function Titles(scores: seq<Game.LocalScore>): (r: seq<string>)
    ensures |r| == |scores|
    ensures forall i :: 0 <= i < |scores| ==> r[i] == scores[i].songTitle
    ensures forall s :: s in r <==> exists e :: e in scores && e.songTitle == s
  {
    seq(|scores|, i requires 0 <= i < |scores| => scores[i].songTitle)
  }

  /** A rearrangement of a list without repetitions has none either. */
  lemma MultisetNoDup<T>(xs: seq<T>, ys: seq<T>)
    requires NoDup(xs) && multiset(xs) == multiset(ys)
    ensures NoDup(ys)
  {
    forall x | x in multiset(ys) ensures multiset(ys)[x] <= 1 {
      DistinctCount(xs, x);
    }
    forall i, j | 0 <= i < j < |ys| ensures ys[i] != ys[j] {
      TwoCopies(ys, i, j);
    }
  }

  /** An element of a list without repetitions occurs at most once. */
  lemma {:induction false} DistinctCount<T>(xs: seq<T>, x: T)
    requires NoDup(xs)
    ensures multiset(xs)[x] <= 1
    decreases |xs|
  {
    if |xs| > 0 {
      var rest := xs[1..];
      assert xs == [xs[0]] + rest;
      assert NoDup(rest) by {
        forall i, j | 0 <= i < j < |rest| ensures rest[i] != rest[j] {
          assert rest[i] == xs[i + 1] && rest[j] == xs[j + 1];
        }
      }
      DistinctCount(rest, x);
      if xs[0] == x {
        forall i | 0 <= i < |rest| ensures rest[i] != x {
          assert rest[i] == xs[i + 1];
        }
        assert x !in rest;
      }
    }
  }

  /** Two equal positions make an element occur at least twice. */
  lemma TwoCopies<T>(ys: seq<T>, i: nat, j: nat)
    requires i < j < |ys|
    ensures ys[i] == ys[j] ==> multiset(ys)[ys[i]] >= 2
  {
    var x := ys[i];
    assert ys == ys[..i] + [x] + ys[i + 1..j] + [ys[j]] + ys[j + 1..];
  }

  /** The difficulties the screen shows, in display order. */
  const Difficulties: seq<string> := ["Easy", "Normal", "Hard", "Expert", "Master"]

  /** The non-empty groups of one song among `ds`, in the order of `ds`. */
  function ShownFrom(g: Buckets<Game.LocalScore>, song: string, ds: seq<string>): (r: seq<(string, seq<Game.LocalScore>)>)
    ensures forall p :: p in r ==> p.0 in ds && song in g && p.0 in g[song] && p.1 == g[song][p.0] && |p.1| > 0
    ensures forall d :: d in ds && song in g && d in g[song] && |g[song][d]| > 0 ==> exists p :: p in r && p.0 == d
    decreases |ds|
  {
    if |ds| == 0 then []
    else
      var rest := ShownFrom(g, song, ds[1..]);
      assert forall d :: d in ds ==> d == ds[0] || d in ds[1..];
      var d := ds[0];
      if song in g && d in g[song] && |g[song][d]| > 0 then [(d, g[song][d])] + rest else rest
  }

  /** The groups shown for one song: a group of another difficulty name is built but never shown. */
  function Shown(g: Buckets<Game.LocalScore>, song: string): (r: seq<(string, seq<Game.LocalScore>)>)
    ensures forall p :: p in r ==> p.0 in Difficulties && song in g && p.0 in g[song] && p.1 == g[song][p.0] && |p.1| > 0
    ensures forall d :: d in Difficulties && song in g && d in g[song] && |g[song][d]| > 0 ==> exists p :: p in r && p.0 == d
  {
    ShownFrom(g, song, Difficulties)
  }

  /** `songsToDisplay` with the songs that have no group dropped, as the page skips them. */
  function SongsToDisplay(scores: seq<Game.LocalScore>, selected: string): (r: seq<string>)
    ensures selected == "all" ==> r == Songs(scores)
    ensures selected != "all" ==> r == if selected in Grouped(scores) then [selected] else []
    ensures forall s :: s in r ==> s in Grouped(scores)
  {
    if selected == "all" then Songs(scores)
    else if selected in Grouped(scores) then [selected]
    else []
  }

  const Gold: string := "\U{1F947}"
  const Silver: string := "\U{1F948}"
  const Bronze: string := "\U{1F949}"

  /** `getRankIcon(position)`: medals for the first three places, `#n` after them. */
  function RankIcon(position: int): (r: string)
    ensures position == 1 <==> r == Gold
    ensures position == 2 <==> r == Silver
    ensures position == 3 <==> r == Bronze
    ensures position !in {1, 2, 3} ==> r == "#" + Text.IntToString(position)
  {
    if position == 1 then Gold
    else if position == 2 then Silver
    else if position == 3 then Bronze
    else "#" + Text.IntToString(position)
  }

  /** Different places get different icons. */
  lemma RankIconInjective(p: int, q: int)
    requires RankIcon(p) == RankIcon(q)
    ensures p == q
  {
    if p !in {1, 2, 3} && q !in {1, 2, 3} {
      var a, b := Text.IntToString(p), Text.IntToString(q);
      assert ("#" + a)[1..] == a && ("#" + b)[1..] == b;
      Text.IntToStringInjective(p, q);
    }
  }
}
