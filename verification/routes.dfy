/**
 * The request handlers of server/routes.ts, with HTTP replaced by functions from
 * the database and the request body to the new database and the response body.
 * A handler that answers with an error status is `Err`.
 */
module Routes {
  import opened Common
  import Progression
  import opened Storage

  // ---------------------------------------------------------------------------
  // GET /api/auth/user
  // ---------------------------------------------------------------------------

  /** The figures the user endpoint adds to the user row. */
  datatype Progress = Progress(expToNext: int, expInCurrentLevel: int, expNeededForNext: int)

  /** The experience at which the user's current level starts: 0 for level 1, (L-1)^2 * 100 above it. */
  function CurrentLevelExperience(level: int): int {
    if level == 1 then 0 else (level - 1) * (level - 1) * 100
  }

  function ProgressOf(u: User): (p: Progress)
    ensures p.expToNext == Progression.ExperienceToNextLevel(u.level)
    ensures p.expNeededForNext == (2 * u.level - 1) * 100
    ensures p.expInCurrentLevel + CurrentLevelExperience(u.level) == u.experience
  {
    var expToNext := Progression.ExperienceToNextLevel(u.level);
    var currentLevelExp := CurrentLevelExperience(u.level);
    Progress(expToNext, u.experience - currentLevelExp, expToNext - currentLevelExp)
  }

  /** The user endpoint: 404 for an unknown user, otherwise the row and its progress figures. */
  function GetAuthUser(db: Db, userId: string): (r: Result<(User, Progress)>)
    ensures r.Err? <==> userId !in db.users
    ensures r.Ok? ==> r.value.0 == db.users[userId] && r.value.1 == ProgressOf(db.users[userId])
  {
    if userId !in db.users then Err("User not found")
    else Ok((db.users[userId], ProgressOf(db.users[userId])))
  }

  /**
   * For a user whose stored level is the level of its experience, the progress bar
   * is never negative and never full: 0 <= expInCurrentLevel < expNeededForNext.
   */
  lemma ProgressInRange(u: User)
    requires u.level == Progression.CalculateLevel(u.experience)
    ensures 0 <= ProgressOf(u).expInCurrentLevel < ProgressOf(u).expNeededForNext
  {
  }

  // ---------------------------------------------------------------------------
  // POST /api/scores
  // ---------------------------------------------------------------------------

  /** The body of a score submission.  The score is a non-negative integer. */
  datatype ScoreRequest = ScoreRequest(
    songTitle: string,
    difficulty: string,
    character: string,
    score: nat,
    accuracy: real,
    combo: int,
    grade: string,
    passed: bool)

  datatype ScoreResponse = ScoreResponse(
    highScore: Option<HighScore>,
    user: User,
    experience: nat,
    leveledUp: bool,
    newCharactersUnlocked: seq<string>,
    unlockedCharacters: seq<string>)

  function Award(req: ScoreRequest): (e: nat)
    ensures req.score < 1000 ==> e == 0
  {
    Progression.CalculateExperience(req.score, req.accuracy, req.difficulty, req.passed)
  }

  function EntryOf(userId: string, req: ScoreRequest): ScoreEntry {
    ScoreEntry(userId, req.songTitle, req.difficulty, req.character, req.score, req.accuracy,
               req.combo, req.grade, req.passed, Award(req))
  }

  /**
   * The high-score step: only a passed song is offered to `saveHighScore`, and a
   * refused insert is swallowed, leaving the database and the high score empty.
   */
  function SaveIfPassed(db: Db, userId: string, req: ScoreRequest): (r: (Db, Option<HighScore>))
    ensures r.1.Some? <==> req.passed && userId in db.users
    ensures r.1.None? ==> r.0 == db
    ensures r.1.Some? ==> r.0 == db.(highScores := db.highScores + [r.1.value])
  {
    if req.passed then
      match SaveHighScore(db, EntryOf(userId, req))
      case Ok((db', row)) => (db', Some(row))
      case Err(_) => (db, None)
    else (db, None)
  }

  /** The characters of `after` missing from `before`, in the order of `after`. */
  function NewlyUnlocked(after: seq<string>, before: seq<string>): (r: seq<string>)
    ensures forall c :: c in r <==> c in after && c !in before
  {
    Filter(after, c => c !in before)
  }

  /**
   * `POST /api/scores`: computes the award, stores a high score for a passed song,
   * adds the award to the user, unlocks characters and reports what changed.
   * An unknown user makes `addExperience` throw, and the handler answers 500.
   */
  function SubmitScore(db: Db, userId: string, req: ScoreRequest): (r: Result<(Db, ScoreResponse)>)
    ensures r.Err? <==> userId !in db.users
  {
    var experience := Award(req);
    var (db1, highScore) := SaveIfPassed(db, userId, req);
    if userId !in db1.users then Err("Failed to save score")
    else
      var oldUser := db1.users[userId];
      match AddExperience(db1, userId, experience)
      case Err(m) => Err(m)
      case Ok((db2, updatedUser)) =>
        match UnlockCharacters(db2, userId)
        case Err(m) => Err(m)
        case Ok((db3, unlocked)) =>
          Ok((db3, ScoreResponse(
            highScore,
            updatedUser,
            experience,
            updatedUser.level > oldUser.level,
            NewlyUnlocked(unlocked, oldUser.unlockedCharacters),
            unlocked)))
  }

  /**
   * What a successful submission does: a high score row is added exactly when the
   * song was passed, carrying the same experience that is added to the user; the
   * user's play count rises by one; `leveledUp` compares the levels before and after;
   * the newly unlocked characters are exactly those the user did not hold before.
   */
  lemma SubmitScoreEffects(db: Db, userId: string, req: ScoreRequest)
    requires userId in db.users
    ensures var r := SubmitScore(db, userId, req);
      var before := db.users[userId];
      r.Ok? &&
      var (db', resp) := r.value;
      && userId in db'.users
      && (req.passed <==> resp.highScore.Some?)
      && (req.passed ==> db'.highScores == db.highScores + [resp.highScore.value]
                          && resp.highScore.value.experience == resp.experience
                          && resp.highScore.value.userId == userId)
      && (!req.passed ==> db'.highScores == db.highScores)
      && resp.experience == Award(req)
      && resp.user.experience == before.experience + resp.experience
      && resp.user.songsPlayed == before.songsPlayed + 1
      && db'.users[userId].experience == resp.user.experience
      && (resp.leveledUp <==> resp.user.level > before.level)
      && (forall c :: c in resp.newCharactersUnlocked <==> c in resp.unlockedCharacters && c !in before.unlockedCharacters)
      && (forall c :: c in before.unlockedCharacters ==> c in resp.unlockedCharacters)
      && (forall id :: id in db.users && id != userId ==> id in db'.users && db'.users[id] == db.users[id])
  {
  }

  /** A submission keeps every user's progression invariant. */
  lemma SubmitScoreKeepsConsistent(db: Db, userId: string, req: ScoreRequest)
    requires DbConsistent(db) && userId in db.users
    ensures SubmitScore(db, userId, req).Ok? && DbConsistent(SubmitScore(db, userId, req).value.0)
  {
    var (db1, _) := SaveIfPassed(db, userId, req);
    assert db1.users == db.users;
    var db2 := AddExperience(db1, userId, Award(req)).value.0;
    AddExperienceKeepsConsistent(db.users[userId], Award(req));
    assert DbConsistent(db2);
    UnlockKeepsConsistent(db2, userId);
  }

  /** For a consistent user, adding experience raises the level exactly when the total reaches the old level's threshold. */
  lemma LevelUpIffThresholdReached(u: User, experience: nat)
    requires Consistent(u)
    ensures WithExperience(u, experience).level > u.level <==>
            u.experience + experience >= Progression.ExperienceToNextLevel(u.level)
  {
    Progression.LevelRisesIffThreshold(u.experience, experience);
  }

  /** A submission levels a consistent user up exactly when the new total reaches the old level's threshold. */
  lemma LeveledUpIffThresholdReached(db: Db, userId: string, req: ScoreRequest)
    requires userId in db.users && Consistent(db.users[userId])
    ensures var before := db.users[userId];
      SubmitScore(db, userId, req).Ok? &&
      (SubmitScore(db, userId, req).value.1.leveledUp <==>
         before.experience + Award(req) >= Progression.ExperienceToNextLevel(before.level))
  {
    SubmitScoreEffects(db, userId, req);
    LevelUpIffThresholdReached(db.users[userId], Award(req));
  }

  // ---------------------------------------------------------------------------
  // POST /api/user/character
  // ---------------------------------------------------------------------------

  /** Selecting a character: refused unless the user exists and has unlocked it. */
  function SelectCharacter(db: Db, userId: string, characterId: string): (r: Result<(Db, User)>)
    ensures r.Err? <==> userId !in db.users || characterId !in db.users[userId].unlockedCharacters
    ensures r.Err? ==> r.message == "Character not unlocked"
    ensures r.Ok? ==> r.value.1.selectedCharacter == characterId
    ensures r.Ok? ==> r.value.0 == db.(users := db.users[userId := r.value.1])
    ensures r.Ok? ==> r.value.1 == db.users[userId].(selectedCharacter := characterId)
  {
    if userId !in db.users || characterId !in db.users[userId].unlockedCharacters then
      Err("Character not unlocked")
    else
      match SetSelectedCharacter(db, userId, characterId)
      case Some(res) => Ok(res)
      case None => Err("Character not unlocked")
  }

  /** Every user's selected character is one it has unlocked. */
  ghost predicate SelectionValid(db: Db) {
    forall id :: id in db.users ==> db.users[id].selectedCharacter in db.users[id].unlockedCharacters
  }

  /** Score submission keeps the selected character among the unlocked ones. */
  lemma SubmitKeepsSelectionValid(db: Db, userId: string, req: ScoreRequest)
    requires SelectionValid(db)
    ensures SubmitScore(db, userId, req).Ok? ==> SelectionValid(SubmitScore(db, userId, req).value.0)
  {
    if userId in db.users {
      var db1 := SaveIfPassed(db, userId, req).0;
      assert db1.users == db.users;
      var e := Award(req);
      AddExperienceKeepsSelection(db1, userId, e);
      UnlockKeepsSelection(AddExperience(db1, userId, e).value.0, userId);
    }
  }

  /** Adding experience leaves every user's characters and selection as they were. */
  lemma AddExperienceKeepsSelection(db: Db, userId: string, experience: nat)
    requires SelectionValid(db) && userId in db.users
    ensures AddExperience(db, userId, experience).Ok?
    ensures SelectionValid(AddExperience(db, userId, experience).value.0)
  {
    var db' := AddExperience(db, userId, experience).value.0;
    forall id | id in db'.users ensures db'.users[id].selectedCharacter in db'.users[id].unlockedCharacters {
      if id != userId {
        assert db'.users[id] == db.users[id];
      }
    }
  }

  /** Unlocking only adds characters, so the selected one stays unlocked. */
  lemma UnlockKeepsSelection(db: Db, userId: string)
    requires SelectionValid(db) && userId in db.users
    ensures UnlockCharacters(db, userId).Ok?
    ensures SelectionValid(UnlockCharacters(db, userId).value.0)
  {
    var u := db.users[userId];
    var cs := UnlockedAfter(u);
    if |cs| > |u.unlockedCharacters| {
      var db' := db.(users := db.users[userId := u.(unlockedCharacters := cs)]);
      assert UnlockCharacters(db, userId).value.0 == db';
      forall id | id in db'.users ensures db'.users[id].selectedCharacter in db'.users[id].unlockedCharacters {
        if id != userId {
          assert db'.users[id] == db.users[id];
        }
      }
    }
  }

  /** Character selection keeps the selected character among the unlocked ones. */
  lemma SelectKeepsSelectionValid(db: Db, userId: string, characterId: string)
    requires SelectionValid(db)
    ensures SelectCharacter(db, userId, characterId).Ok? ==> SelectionValid(SelectCharacter(db, userId, characterId).value.0)
  {
  }
}
