/**
 * The server's storage layer (server/storage.ts) with the database replaced by
 * an in-memory value: a map from user id to user row and the list of
 * high-score rows in insertion order.  Each operation returns the new
 * database together with what the source returns; a thrown error is `Err`.
 */
module Storage {
  import opened Common
  import opened Ranking
  import Progression

  /** A row of the `users` table, restricted to the progression columns. */
  datatype User = User(
    id: string,
    level: int,
    experience: nat,
    totalScore: int,
    songsPlayed: nat,
    unlockedCharacters: seq<string>,
    selectedCharacter: string)

  /** A row of the `high_scores` table; `id` is the serial key. */
  datatype HighScore = HighScore(
    id: nat,
    userId: string,
    songTitle: string,
    difficulty: string,
    character: string,
    score: int,
    accuracy: real,
    combo: int,
    grade: string,
    passed: bool,
    experience: int)

  /** The columns a caller supplies when inserting a high score. */
  datatype ScoreEntry = ScoreEntry(
    userId: string,
    songTitle: string,
    difficulty: string,
    character: string,
    score: int,
    accuracy: real,
    combo: int,
    grade: string,
    passed: bool,
    experience: int)

  datatype Db = Db(users: map<string, User>, highScores: seq<HighScore>)

  /** A freshly created user carries the column defaults: level 1, no experience, ivy unlocked and selected. */
  function NewUser(id: string): (u: User)
    ensures Consistent(u) && u.selectedCharacter in u.unlockedCharacters
  {
    User(id, 1, 0, 0, 0, ["ivy"], "ivy")
  }

  /**
   * The progression invariant of a user row: the stored level is the level of the
   * stored experience, and the unlocked list has no repeated character.
   */
  predicate Consistent(u: User) {
    u.level == Progression.CalculateLevel(u.experience) && NoDup(u.unlockedCharacters)
  }

  ghost predicate DbConsistent(db: Db) {
    forall id :: id in db.users ==> Consistent(db.users[id])
  }

  // ---------------------------------------------------------------------------
  // addExperience
  // ---------------------------------------------------------------------------

  /** The row `addExperience` writes: experience, level, total score and play count advance. */
  function WithExperience(u: User, experience: nat): (u': User)
    ensures u'.experience == u.experience + experience
    ensures Progression.CalculateLevel(u.experience) <= u'.level
    ensures (u'.level - 1) * (u'.level - 1) * 100 <= u'.experience < u'.level * u'.level * 100
    ensures u'.songsPlayed == u.songsPlayed + 1
    ensures u'.totalScore - u.totalScore == 10 * experience
    ensures u'.id == u.id && u'.unlockedCharacters == u.unlockedCharacters && u'.selectedCharacter == u.selectedCharacter
  {
    var e := u.experience + experience;
    Progression.LevelMonotone(u.experience, e);
    u.(experience := e, level := Progression.CalculateLevel(e), totalScore := u.totalScore + experience * 10, songsPlayed := u.songsPlayed + 1)
  }

  /** `addExperience(userId, experience)`: fails on an unknown user, otherwise rewrites that user's row. */
  function AddExperience(db: Db, userId: string, experience: nat): (r: Result<(Db, User)>)
    ensures r.Err? <==> userId !in db.users
    ensures r.Ok? ==> r.value.1 == WithExperience(db.users[userId], experience)
    ensures r.Ok? ==> r.value.0 == db.(users := db.users[userId := r.value.1])
  {
    if userId !in db.users then Err("User not found")
    else
      var u := WithExperience(db.users[userId], experience);
      Ok((db.(users := db.users[userId := u]), u))
  }

  /** A consistent user stays consistent, and never loses a level, when experience is added. */
  lemma AddExperienceKeepsConsistent(u: User, experience: nat)
    requires Consistent(u)
    ensures Consistent(WithExperience(u, experience))
    ensures WithExperience(u, experience).level >= u.level
  {
  }

  /** Two awards in a row reach the same experience, level and total score as their sum at once. */
  lemma AddExperienceAdditive(u: User, e1: nat, e2: nat)
    ensures var twice := WithExperience(WithExperience(u, e1), e2);
      var once := WithExperience(u, e1 + e2);
      twice.experience == once.experience && twice.level == once.level
      && twice.totalScore == once.totalScore && twice.songsPlayed == once.songsPlayed + 1
  {
  }

  // ---------------------------------------------------------------------------
  // unlockCharacters
  // ---------------------------------------------------------------------------

  /** The characters a user holds after `unlockCharacters`: the stored ones, then the newly entitled. */
  function UnlockedAfter(u: User): (cs: seq<string>)
    ensures NoDup(cs)
    ensures forall c :: c in cs <==> c in u.unlockedCharacters || c in Progression.EntitledCharacters(u.level)
  {
    AddNew(Dedup(u.unlockedCharacters), Progression.EntitledCharacters(u.level))
  }

  /**
   * `unlockCharacters(userId)`: fails on an unknown user; otherwise returns the new list
   * and writes it back only when it is longer than the stored list.
   */
  function UnlockCharacters(db: Db, userId: string): (r: Result<(Db, seq<string>)>)
    ensures r.Err? <==> userId !in db.users
    ensures r.Ok? ==> r.value.1 == UnlockedAfter(db.users[userId])
    ensures r.Ok? ==> var u := db.users[userId];
      r.value.0 == if |r.value.1| > |u.unlockedCharacters|
                   then db.(users := db.users[userId := u.(unlockedCharacters := r.value.1)])
                   else db
  {
    if userId !in db.users then Err("User not found")
    else
      var u := db.users[userId];
      var cs := UnlockedAfter(u);
      if |cs| > |u.unlockedCharacters| then Ok((db.(users := db.users[userId := u.(unlockedCharacters := cs)]), cs))
      else Ok((db, cs))
  }

  /**
   * For a stored list without repetitions the length guard is exact: the row is
   * rewritten precisely when the level entitles the user to a character not yet held,
   * and otherwise the returned list is the stored one.
   */
  lemma UnlockWritesIffNew(u: User)
    requires NoDup(u.unlockedCharacters)
    ensures |UnlockedAfter(u)| > |u.unlockedCharacters| <==>
            exists c :: c in Progression.EntitledCharacters(u.level) && c !in u.unlockedCharacters
    ensures |UnlockedAfter(u)| <= |u.unlockedCharacters| ==> UnlockedAfter(u) == u.unlockedCharacters
  {
    AddNewDistinct([], u.unlockedCharacters);
    assert Dedup(u.unlockedCharacters) == u.unlockedCharacters;
    AddNewGrows(u.unlockedCharacters, Progression.EntitledCharacters(u.level));
  }

  /** `unlockCharacters` keeps every user consistent. */
  lemma UnlockKeepsConsistent(db: Db, userId: string)
    requires DbConsistent(db) && userId in db.users
    ensures UnlockCharacters(db, userId).Ok? && DbConsistent(UnlockCharacters(db, userId).value.0)
  {
    var u := db.users[userId];
    var cs := UnlockedAfter(u);
    if |cs| > |u.unlockedCharacters| {
      var db' := db.(users := db.users[userId := u.(unlockedCharacters := cs)]);
      assert UnlockCharacters(db, userId).value.0 == db';
      forall id | id in db'.users ensures Consistent(db'.users[id]) {
        if id != userId {
          assert db'.users[id] == db.users[id];
        }
      }
    }
  }

  // ---------------------------------------------------------------------------
  // setSelectedCharacter and saveHighScore
  // ---------------------------------------------------------------------------

  /** `setSelectedCharacter(userId, characterId)`: no guard; an unknown user updates no row and yields nothing. */
  function SetSelectedCharacter(db: Db, userId: string, characterId: string): (r: Option<(Db, User)>)
    ensures r.None? <==> userId !in db.users
    ensures r.Some? ==> r.value.1 == db.users[userId].(selectedCharacter := characterId)
    ensures r.Some? ==> r.value.0 == db.(users := db.users[userId := r.value.1])
  {
    if userId !in db.users then None
    else
      var u := db.users[userId].(selectedCharacter := characterId);
      Some((db.(users := db.users[userId := u]), u))
  }

  function RowOf(entry: ScoreEntry, id: nat): HighScore {
    HighScore(id, entry.userId, entry.songTitle, entry.difficulty, entry.character,
              entry.score, entry.accuracy, entry.combo, entry.grade, entry.passed, entry.experience)
  }

  /**
   * `saveHighScore(entry)`: a failed song is refused; otherwise the row is appended
   * under the next serial id.  The user-id foreign key refuses an unknown user.
   */
  function SaveHighScore(db: Db, entry: ScoreEntry): (r: Result<(Db, HighScore)>)
    ensures r.Err? <==> !entry.passed || entry.userId !in db.users
    ensures !entry.passed ==> r == Err("Only cleared songs can be saved to high scores")
    ensures r.Ok? ==> r.value.0 == db.(highScores := db.highScores + [r.value.1])
    ensures r.Ok? ==> r.value.1 == RowOf(entry, |db.highScores| + 1)
  {
    if !entry.passed then Err("Only cleared songs can be saved to high scores")
    else if entry.userId !in db.users then Err("insert violates foreign key on user_id")
    else
      var row := RowOf(entry, |db.highScores| + 1);
      Ok((db.(highScores := db.highScores + [row]), row))
  }

  // ---------------------------------------------------------------------------
  // Leaderboards
  // ---------------------------------------------------------------------------

  /** `ORDER BY score DESC`: a row may precede another of lower or equal score. */
  function HigherFirst(a: HighScore, b: HighScore): bool {
    a.score >= b.score
  }

  lemma HigherFirstIsTotalPreorder()
    ensures TotalPreorder(HigherFirst)
  {
  }

  function SongOf(h: HighScore): string { h.songTitle }

  function DifficultyOf(h: HighScore): string { h.difficulty }

  function IsPassed(h: HighScore): bool { h.passed }

  /** The size of every leaderboard. */
  const LeaderboardSize: nat := 10

  /** The passed rows, in insertion order. */
  function PassedRows(db: Db): (r: seq<HighScore>)
    ensures forall h :: h in r <==> h in db.highScores && h.passed
    ensures multiset(r) <= multiset(db.highScores)
  {
    Filter(db.highScores, IsPassed)
  }

  /** `getLeaderboard(songTitle, difficulty)`: passed rows of that chart, best first, at most ten. */
  function GetLeaderboard(db: Db, songTitle: string, difficulty: string): (r: seq<HighScore>)
    ensures |r| <= LeaderboardSize
    ensures forall h :: h in r ==> h in db.highScores && h.passed && h.songTitle == songTitle && h.difficulty == difficulty
    ensures multiset(r) <= multiset(db.highScores)
  {
    var rows := Matching(PassedRows(db), SongOf, DifficultyOf, songTitle, difficulty);
    TopOf(rows);
    Take(SortBy(rows, HigherFirst), LeaderboardSize)
  }

  /**
   * The leaderboard is in descending score order and holds the best scores: every
   * passed row of the chart left out scores no more than any row shown, and one is
   * left out only when ten are shown.
   */
  lemma GetLeaderboardIsTopTen(db: Db, songTitle: string, difficulty: string)
    ensures var r := GetLeaderboard(db, songTitle, difficulty);
      && (forall i, j :: 0 <= i < j < |r| ==> r[i].score >= r[j].score)
      && (forall h :: h in db.highScores && h.passed && h.songTitle == songTitle && h.difficulty == difficulty && h !in r ==>
            |r| == LeaderboardSize && forall k :: k in r ==> k.score >= h.score)
  {
    var rows := Matching(PassedRows(db), SongOf, DifficultyOf, songTitle, difficulty);
    TopOf(rows);
    var r := GetLeaderboard(db, songTitle, difficulty);
    assert r == Take(SortBy(rows, HigherFirst), LeaderboardSize);
    forall h | h in db.highScores && h.passed && h.songTitle == songTitle && h.difficulty == difficulty && h !in r
      ensures |r| == LeaderboardSize && forall k :: k in r ==> k.score >= h.score
    {
      assert h in PassedRows(db);
      assert h in rows;
    }
  }

  /** The best ten of a list of rows, by score. */
  lemma TopOf(rows: seq<HighScore>)
    ensures var r := Take(SortBy(rows, HigherFirst), LeaderboardSize);
      && (forall h :: h in r ==> h in rows)
      && multiset(r) <= multiset(rows)
      && (forall i, j :: 0 <= i < j < |r| ==> r[i].score >= r[j].score)
      && (forall h :: h in rows && h !in r ==> |r| == LeaderboardSize && forall k :: k in r ==> k.score >= h.score)
  {
    HigherFirstIsTotalPreorder();
    TakeSortedIsTop(rows, LeaderboardSize, HigherFirst);
  }

  /** The passed rows, best first: the input of the grouping in `getAllLeaderboards`. */
  function RankedPassedRows(db: Db): (r: seq<HighScore>)
    ensures forall h :: h in r <==> h in db.highScores && h.passed
    ensures SortedBy(r, HigherFirst)
  {
    var passed := PassedRows(db);
    HigherFirstIsTotalPreorder();
    SortBySorted(passed, HigherFirst);
    var r := SortBy(passed, HigherFirst);
    assert forall h :: h in r <==> h in multiset(passed);
    r
  }

  /** The ranking only reorders the passed rows: it neither drops nor repeats one. */
  lemma RankedRowsArePassedRows(db: Db)
    ensures multiset(RankedPassedRows(db)) == multiset(PassedRows(db))
    ensures multiset(RankedPassedRows(db)) <= multiset(db.highScores)
  {
    HigherFirstIsTotalPreorder();
    SortBySorted(PassedRows(db), HigherFirst);
  }

  /** `getAllLeaderboards()`: passed rows, best first, grouped by song and difficulty, ten per bucket. */
  function GetAllLeaderboards(db: Db): (g: Buckets<HighScore>)
    ensures forall s :: s in g <==> exists h :: h in db.highScores && h.passed && h.songTitle == s
    ensures forall s, d :: s in g && d in g[s] <==>
      exists h :: h in db.highScores && h.passed && h.songTitle == s && h.difficulty == d
  {
    var ranked := RankedPassedRows(db);
    var g := Group(ranked, SongOf, DifficultyOf, LeaderboardSize);
    forall s ensures s in g <==> exists h :: h in ranked && SongOf(h) == s {
      GroupSongs(ranked, SongOf, DifficultyOf, LeaderboardSize, s);
    }
    forall s, d ensures s in g && d in g[s] <==> exists h :: h in ranked && h.songTitle == s && h.difficulty == d {
      GroupBucket(ranked, SongOf, DifficultyOf, LeaderboardSize, s, d);
      var m := Matching(ranked, SongOf, DifficultyOf, s, d);
      if |m| > 0 {
        assert m[0] in m;
      }
    }
    g
  }

  /**
   * Each bucket of `getAllLeaderboards` is the first ten passed rows of its song and
   * difficulty in the ranked list: non-empty, at most ten, in descending score order,
   * no stored row repeated, and no passed row of that chart left out beats a row kept.
   */
  lemma AllLeaderboardsBuckets(db: Db, s: string, d: string)
    ensures var g := GetAllLeaderboards(db);
      s in g && d in g[s] ==>
        && 0 < |g[s][d]| <= LeaderboardSize
        && (forall h :: h in g[s][d] ==> h in db.highScores && h.passed && h.songTitle == s && h.difficulty == d)
        && (forall i, j :: 0 <= i < j < |g[s][d]| ==> g[s][d][i].score >= g[s][d][j].score)
        && (forall h :: h in db.highScores && h.passed && h.songTitle == s && h.difficulty == d && h !in g[s][d] ==>
              |g[s][d]| == LeaderboardSize && forall k :: k in g[s][d] ==> k.score >= h.score)
        && g[s][d] == Take(Matching(RankedPassedRows(db), SongOf, DifficultyOf, s, d), LeaderboardSize)
        && multiset(g[s][d]) <= multiset(db.highScores)
  {
    BucketIsChartTop(db, s, d);
    BucketRowsStored(db, s, d);
  }

  /** The ranking facts of one bucket, read off the grouping of the ranked rows. */
  lemma BucketIsChartTop(db: Db, s: string, d: string)
    ensures var g := GetAllLeaderboards(db);
      s in g && d in g[s] ==> var b := g[s][d];
      && 0 < |b| <= LeaderboardSize
      && (forall h :: h in b ==> h in db.highScores && h.passed && h.songTitle == s && h.difficulty == d)
      && (forall i, j :: 0 <= i < j < |b| ==> b[i].score >= b[j].score)
      && (forall h :: h in db.highScores && h.passed && h.songTitle == s && h.difficulty == d && h !in b ==>
            |b| == LeaderboardSize && forall k :: k in b ==> k.score >= h.score)
  {
    var ranked := RankedPassedRows(db);
    var g := GetAllLeaderboards(db);
    if s in g && d in g[s] {
      var b: seq<HighScore> := g[s][d];
      GroupTop(ranked, SongOf, DifficultyOf, LeaderboardSize, HigherFirst, s, d, b);
      ChartTopOfRanked(db.highScores, ranked, s, d, b);
    }
  }

  /** Reads the score facts of a chart's top rows off their order in the ranked list. */
  lemma ChartTopOfRanked(rows: seq<HighScore>, ranked: seq<HighScore>, s: string, d: string, b: seq<HighScore>)
    requires forall h :: h in ranked <==> h in rows && h.passed
    requires 0 < |b| <= LeaderboardSize
    requires forall x :: x in b ==> x in ranked && SongOf(x) == s && DifficultyOf(x) == d
    requires SortedBy(b, HigherFirst)
    requires forall y :: y in ranked && SongOf(y) == s && DifficultyOf(y) == d && y !in b ==>
               |b| == LeaderboardSize && forall x :: x in b ==> HigherFirst(x, y)
    ensures forall h :: h in b ==> h in rows && h.passed && h.songTitle == s && h.difficulty == d
    ensures forall i, j :: 0 <= i < j < |b| ==> b[i].score >= b[j].score
    ensures forall h :: h in rows && h.passed && h.songTitle == s && h.difficulty == d && h !in b ==>
              |b| == LeaderboardSize && forall k :: k in b ==> k.score >= h.score
  {
    forall i: int, j: int | 0 <= i < j < |b| ensures b[i].score >= b[j].score {
      assert HigherFirst(b[i], b[j]);
    }
  }

  /** A bucket is the head of its chart's ranked rows, so it repeats no stored row. */
  lemma BucketRowsStored(db: Db, s: string, d: string)
    ensures var g := GetAllLeaderboards(db);
      s in g && d in g[s] ==>
      && g[s][d] == Take(Matching(RankedPassedRows(db), SongOf, DifficultyOf, s, d), LeaderboardSize)
      && multiset(g[s][d]) <= multiset(db.highScores)
  {
    var ranked := RankedPassedRows(db);
    var g := GetAllLeaderboards(db);
    if s in g && d in g[s] {
      RankedRowsArePassedRows(db);
      GroupBucket(ranked, SongOf, DifficultyOf, LeaderboardSize, s, d);
      var m := Matching(ranked, SongOf, DifficultyOf, s, d);
      var b := Take(m, LeaderboardSize);
      assert multiset(b) <= multiset(m) <= multiset(ranked) <= multiset(db.highScores);
    }
  }
}
