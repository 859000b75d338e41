# TempoRush in Dafny

TempoRush is a four-lane rhythm game: a TypeScript client with a canvas engine and two
zustand stores, an Express server that turns a finished song into experience, levels and
character unlocks, and two Python asset scripts. This project models the game's logic as
immutable records and pure functions, and proves what the game promises about them.

- **Scoring store** (`Rhythm`, useRhythm.tsx): tap and hold judgements update score,
  combo, best combo, health, hit counters and accuracy. The store's invariant holds across
  any session of judgements.
- **Game store** (`Game`, useGame.tsx): the guarded phase machine
  (song select → playing ↔ paused → ended, and back to ready). It also covers the speed
  clamp, the Master unlock list and the local top-100 score table.
- **Engine** (`Engine`, gameEngine.ts): lane geometry and key mapping, with key repeat
  suppressed. A press judges the closest unhit note of its lane by the 30/60-pixel bands.
  Each frame moves the notes and judges the ones that fell past the miss line. Notes spawn
  at a shrinking interval.
- **Progression** (`Progression`, schema.ts): experience from score, difficulty, accuracy
  and pass; the level as an integer square root; level thresholds; character unlock
  levels.
- **Server** (`Storage`, storage.ts, and `Routes`, routes.ts): the database becomes a
  value, a `users` map plus a `high_scores` list, and a failed call becomes `Err`. This
  covers adding experience, unlocking characters, the pass-gated high-score insert, the
  top-10 leaderboards, and the score, user and character handlers.
- **Results and high-score screens** (`Results`, `HighScores`): the full-combo and
  all-perfect flags, the rank tiers and their colours, the pass rule, and the grouped,
  alphabetised top-10 view with its medals.
- **Background removal** (`Backgrounds`, remove_backgrounds.py): the fixed-threshold and
  edge-sampled classifiers over RGBA pixel lists, and the driver with its fallback.
- **Charts** (`Charts`, charts.ts): beat-to-millisecond conversion, the five charts of
  "Gears of Fate" note for note, and the registry lookup.

Shared pieces:
- `Common`: Option/Result, Filter, and insertion-ordered de-duplication.
- `Ranking`: a stable insertion sort by any total preorder, `Take`, and the capped
  song/difficulty grouping used by both leaderboards.
- `Text`: string order, ASCII lower-casing and decimal rendering.

Where the code and its design notes disagree, the model follows the code:
- The simple background classifier keeps the original pixel, alpha included, in its last
  branch; it does not force alpha to 255.
- The frame's end-of-game check reads the health the store had before that frame's misses
  were judged.
- The Normal chart declares 160 BPM, but most of its notes are timed at 165 BPM; the data
  is kept as written.
- The engine schedules the first note 2000 ms into a run, but it measures elapsed time as
  `Date.now()` minus the first frame's `requestAnimationFrame` timestamp. The two clocks
  have different origins, so the first note appears on the first frame. Both clocks are
  parameters of the model.

## Model

| member | source | states |
|---|---|---|
| Rhythm.ClampHealth | client/src/lib/stores/useRhythm.tsx:90 | health is clamped into [0, 100]; in-range values pass through, values below go to 0 and values above go to 100 |
| Rhythm.Accuracy | client/src/lib/stores/useRhythm.tsx:96-98 | accuracy × total = (perfect + good) × 100; it lies in [0, 100], is 100 with no judgement, and is 100 exactly when there is no miss |
| Rhythm.HitNote | client/src/lib/stores/useRhythm.tsx:62-110 | a miss zeroes the combo, adds no score and costs 3 health; perfect adds 1 to the combo, 100·(combo+1) to the score and 2 health; good adds 1 to the combo, 50·(combo+1) to the score and 1 health; health is clamped into [0, 100]; best combo becomes the larger of the old best and the new combo; only the judged counter rises, by 1; accuracy follows the counters; exactly the notes with the id are marked hit and no other note changes |
| Rhythm.Find | client/src/lib/stores/useRhythm.tsx:122 | the first note with the id, or none when no note carries it |
| Rhythm.HoldRatio | client/src/lib/stores/useRhythm.tsx:125-127 | the hold ratio is the held time over the expected duration, capped at 1, and is exactly 1 when the key was held for the whole expected duration; an unset (or zero) start time or duration falls back to 0 and 1000 ms |
| Rhythm.HoldScore | client/src/lib/stores/useRhythm.tsx:134-141 | a successful perfect hold earns between 160 and 200 points per combo step; a successful good hold earns between 50 and 100 |
| Rhythm.HoldScoreMonotone | client/src/lib/stores/useRhythm.tsx:134-141 | a longer hold of the same judgement still succeeds and never earns less |
| Rhythm.HoldScoreFull | client/src/lib/stores/useRhythm.tsx:134-141 | a hold kept for the whole expected time earns exactly 200·(combo+1) when perfect and 100·(combo+1) when good |
| Rhythm.EndHoldNote | client/src/lib/stores/useRhythm.tsx:120-168 | an unknown id leaves the store unchanged; a perfect hold needs ratio > 0.8 and earns the hold score and 3 health, a good hold needs ratio > 0.5 and earns the hold score and 2 health, each adding 1 to the combo; a short hold resets the combo, adds no score and costs 5 health; health is clamped into [0, 100]; the named counter is counted either way and accuracy follows the counters; best combo becomes the larger of the old best and the new combo; the note list is the old one with that id marked hit |
| Rhythm.StartHoldNote | client/src/lib/stores/useRhythm.tsx:112-118 | only the notes with the id become active with the given start time; nothing else changes |
| Rhythm.AddNote | client/src/lib/stores/useRhythm.tsx:56-60 | the note is appended at the end and nothing else changes |
| Rhythm.ReplaceNotes | client/src/lib/stores/useRhythm.tsx:170-172 | the note list is replaced and nothing else changes |
| Rhythm.ResetGame | client/src/lib/stores/useRhythm.tsx:174-189 | the result is the initial store, which satisfies the session invariant |
| Rhythm.TriggerFlash | client/src/lib/stores/useRhythm.tsx:191-193 | the flash is set to the given intensity, 0.8 by default, and nothing else changes |
| Rhythm.UpdateFlash | client/src/lib/stores/useRhythm.tsx:195-199 | the flash fades by 0.04 per frame and stops at 0 |
| Rhythm.FlashFadesOut | client/src/lib/stores/useRhythm.tsx:195-199 | a flash no brighter than n × 0.04 is gone after n frames |
| Rhythm.HitNotePreservesValid | client/src/lib/stores/useRhythm.tsx:89-107 | a tap judgement keeps the session invariant: health in range, score non-negative, combo ≤ best combo ≤ successful hits, and accuracy in step with the counters |
| Rhythm.EndHoldNotePreservesValid | client/src/lib/stores/useRhythm.tsx:147-165 | a hold release keeps the same invariant |
| Rhythm.PlayAllKeepsInvariant | client/src/lib/stores/useRhythm.tsx:62-110 | over any sequence of tap judgements the invariant holds, score and best combo never fall, and the counters grow by the number of judgements |
| Game.SetPhase | client/src/lib/stores/useGame.tsx:96-98 | the phase is set unconditionally and nothing else changes |
| Game.ShowSongSelect | client/src/lib/stores/useGame.tsx:100-102 | the phase becomes song select and nothing else changes |
| Game.ShowCharacterSelect | client/src/lib/stores/useGame.tsx:104-106 | the phase becomes character select and nothing else changes |
| Game.ShowHighScores | client/src/lib/stores/useGame.tsx:108-110 | the phase becomes high scores and nothing else changes |
| Game.Start | client/src/lib/stores/useGame.tsx:153-162 | the only change is song select → playing, and it needs a selected song; every other state is left as it is |
| Game.Pause | client/src/lib/stores/useGame.tsx:164-176 | the only change is playing → paused |
| Game.Resume | client/src/lib/stores/useGame.tsx:178-186 | the only change is paused → playing |
| Game.End | client/src/lib/stores/useGame.tsx:193-202 | the only change is playing → ended |
| Game.Restart | client/src/lib/stores/useGame.tsx:188-191 | the phase becomes ready and the song is cleared; character, Master unlocks and speed are kept |
| Game.PauseResumeRoundTrip | client/src/lib/stores/useGame.tsx:164-186 | pausing then resuming a running game, or resuming then pausing a paused one, gives back the same store |
| Game.RestartIdempotent | client/src/lib/stores/useGame.tsx:188-191 | restarting twice is the same as restarting once |
| Game.SelectSong | client/src/lib/stores/useGame.tsx:112-119 | the song and the difficulty as passed (possibly none) are stored and nothing else changes |
| Game.SetSelectedCharacter | client/src/lib/stores/useGame.tsx:127-129 | the character is stored and nothing else changes |
| Game.UnlockMaster | client/src/lib/stores/useGame.tsx:121-125 | the song id is appended after the existing list, even if it is already listed |
| Game.ClampSpeed | client/src/lib/stores/useGame.tsx:132 | the speed lies in [0.5, 2.0]; an in-range request is kept as given, one below becomes 0.5 and one above becomes 2.0 |
| Game.ClampSpeedNearest | client/src/lib/stores/useGame.tsx:132 | the clamp picks the point of [0.5, 2.0] nearest the request, and clamping twice changes nothing |
| Game.SetSpeedMultiplier | client/src/lib/stores/useGame.tsx:131-135 | the stored speed is the clamp of the request, so it lies in [0.5, 2.0], and nothing else changes |
| Game.SetSpeedIdempotent | client/src/lib/stores/useGame.tsx:131-135 | setting the speed twice is setting it once, and an in-range speed is stored unchanged |
| Game.StepKeepsValid | client/src/lib/stores/useGame.tsx:112-202 | every guarded action keeps "a game in progress has a song, and the speed is in range"; any move into or between the in-game phases is one of the four guarded edges |
| Game.RunKeepsValid | client/src/lib/stores/useGame.tsx:73-202 | any sequence of guarded actions keeps that invariant |
| Game.InitialValid | client/src/lib/stores/useGame.tsx:73-94 | the initial store is ready and satisfies the invariant |
| Game.EntryOf | client/src/lib/stores/useGame.tsx:139-144 | a saved entry carries the clock reading as id and timestamp, "Player" as its name, and the game's score data |
| Game.SaveHighScore | client/src/lib/stores/useGame.tsx:137-151 | the table keeps min(100, stored + 1) entries, sorted by descending score, each one stored before or the new one, and no entry more often than it occurs in the stored list plus the new one |
| Game.SaveHighScoreKeepsBest | client/src/lib/stores/useGame.tsx:145-149 | an entry is dropped only when 100 are kept, each scoring at least as much; below 100 stored, the new entry and all stored ones survive |
| Game.EndOfGame | client/src/components/Game.tsx:43-58 | nothing is saved unless the game has ended with a song and a character chosen and nothing saved yet; then a missing difficulty throws, and otherwise the score data carries the song title, the difficulty level, the character name and the final score, accuracy and best combo |
| Game.SongScreenGameCrashesAtEnd | client/src/components/SongSelect.tsx:45-47 | a song picked on the song screen carries no difficulty, so starting and ending that game makes the end-of-game save throw |
| Game.ChosenDifficultySavesAtEnd | client/src/components/Game.tsx:44-56 | with a difficulty chosen, the same path saves the score once, under that difficulty's level |
| Engine.Resize | client/src/lib/gameEngine.ts:47-52 | four lanes of equal width fill the canvas, and the hit line sits 120 pixels above the bottom edge |
| Engine.LaneCentresInside | client/src/lib/gameEngine.ts:114 | the particle x position of each lane lies inside the canvas, increasing from left to right |
| Engine.LaneOf | client/src/lib/gameEngine.ts:85-86 | a, s, k and l map to lanes 0 to 3, and every other key maps to no lane |
| Engine.LaneOfKey | client/src/lib/gameEngine.ts:85 | each lane's key maps back to that lane |
| Engine.KeyDown | client/src/lib/gameEngine.ts:55-64 | the key is lower-cased; a press is produced exactly when it is a lane key that is not already held, and the key is then held with its frame recorded; otherwise nothing changes |
| Engine.KeyUp | client/src/lib/gameEngine.ts:66-71 | a lane key is released; other keys change nothing |
| Engine.KeyRepeatSuppressed | client/src/lib/gameEngine.ts:58-62 | a held key does not judge again until it is released, and after the release it judges again |
| Engine.Judge | client/src/lib/gameEngine.ts:110-122 | distance ≤ 30 is perfect, ≤ 60 is good, and anything farther is a miss |
| Engine.JudgeMonotone | client/src/lib/gameEngine.ts:110-122 | a closer note is never judged worse |
| Engine.Closest | client/src/lib/gameEngine.ts:103-105 | the chosen note is at least as close as every candidate, and every earlier candidate is strictly farther |
| Engine.Target | client/src/lib/gameEngine.ts:92-105 | there is no target exactly when the lane has no unhit note; otherwise the target is an unhit note of the lane, no farther from the hit line than any other |
| Engine.HandleKeyPress | client/src/lib/gameEngine.ts:84-125 | a non-lane key or a lane with no unhit note changes nothing; otherwise the target is judged by its distance, with a miss still passed to hitNote |
| Engine.TargetIsEarliestClosest | client/src/lib/gameEngine.ts:103-105 | when candidates tie, the earliest of them in list order is judged |
| Engine.HandleKeyPressCounts | client/src/lib/gameEngine.ts:84-125 | a press either changes nothing or adds exactly one judgement |
| Engine.Survivors | client/src/lib/gameEngine.ts:170-186 | no surviving note is hit or below the miss line; every unhit note that stays above it survives, moved down; nothing else survives |
| Engine.MoveAll | client/src/lib/gameEngine.ts:177 | each note, position by position, moved down by the frame's distance |
| Engine.SurvivorsKeepOrder | client/src/lib/gameEngine.ts:170-186 | the survivors are the kept notes in their original list order, each moved down |
| Engine.MissesOf | client/src/lib/gameEngine.ts:180-183 | every unhit note carried past the miss line is reported as a miss, and nothing else is reported |
| Engine.FrameAccountsForEveryNote | client/src/lib/gameEngine.ts:170-186 | survivors plus reported misses equal the unhit notes: every note is hit, kept or missed |
| Engine.UpdateNotes | client/src/lib/gameEngine.ts:166-194 | the survivors replace the note list, and the game ends exactly when the health read before the frame is at most 0 |
| Engine.UpdateNotesEffects | client/src/lib/gameEngine.ts:170-188 | after a frame, no hit note and no note below the miss line remain; each missed note adds one miss, the score is unchanged, any miss ends the combo, and each miss costs 3 health, down to 0 (the health the next frame's end-of-game check reads) |
| Engine.UpdateNotesJudges | client/src/lib/gameEngine.ts:166-188 | the frame's scoring store is the store after judging the reported misses one by one, with the survivors as its notes |
| Engine.MissesOnly | client/src/lib/stores/useRhythm.tsx:62-110 | a run of misses keeps the score and the flash, adds one miss per judgement, ends any combo, and takes 3 health per miss, down to 0 |
| Engine.MissesCostHealth | client/src/lib/stores/useRhythm.tsx:84-90 | after n misses from a health in range, the health is the old health less 3·n, but never below 0 |
| Engine.UpdateNotesKeepsValid | client/src/lib/gameEngine.ts:166-194 | a frame keeps the scoring store's invariant |
| Engine.NextInterval | client/src/lib/gameEngine.ts:160-162 | the interval shrinks by 0.5 ms while above 400 ms and is otherwise kept |
| Engine.IntervalAfterClosedForm | client/src/lib/gameEngine.ts:160-162 | after n notes the interval is max(400, 1000 − n/2) ms, never below 400 |
| Engine.StartSpawner | client/src/lib/gameEngine.ts:301-310 | while a frame is scheduled nothing changes; otherwise the run start is cleared, the first note is due at 2000 on the run clock, a frame is scheduled and the interval carries over |
| Engine.StopSpawner | client/src/lib/gameEngine.ts:312-316 | the scheduled frame is cancelled and the clocks and schedule are kept |
| Engine.StampStart | client/src/lib/gameEngine.ts:282-285 | a cleared run start takes the frame timestamp; a set one is kept |
| Engine.GenerateNote | client/src/lib/gameEngine.ts:141-164 | the elapsed time is the wall-clock reading minus the run start; before the due time nothing happens; otherwise one note is appended in a lane 0..3 at y = −50, stamped with the elapsed time, the next note is due one interval later ±150 ms, and the interval shrinks |
| Engine.FirstFrameSpawnsIffClocksApart | client/src/lib/gameEngine.ts:141-310 | on the first frame of a fresh run a note appears exactly when the wall clock is at least 2000 past the frame timestamp |
| Progression.DifficultyMultiplier | shared/schema.ts:99-107 | the multiplier lies in [1, 2.5], and an unknown difficulty gets 1.0 |
| Progression.MultiplierAsWritten | shared/schema.ts:99-107 | the table lookup with its fallback of 1.0 yields NaN exactly for the names an object inherits, and agrees with the corrected multiplier on every other name |
| Progression.ExperienceAsWritten | shared/schema.ts:95-118 | the award as written is NaN exactly for an inherited difficulty name, and otherwise equals the corrected award |
| Progression.ConstructorDifficultyIsNaN | shared/schema.ts:107 | the difficulty "constructor" earns NaN as written, where the corrected rule gives the Easy award, 7 for 5000 points at 90% passed |
| Progression.CalculateExperience | shared/schema.ts:95-118 | a score under 1000 earns nothing; a non-negative score earns at least score div 1000 and at most 4.5 times that |
| Progression.AwardBounds | shared/schema.ts:95-117 | a non-negative base earns at least itself and at most 4.5 times itself, the product of the largest factors 2.5, 1.5 and 1.2 |
| Progression.AwardMonotone | shared/schema.ts:107-117 | larger difficulty, accuracy or pass factors never give a smaller floored award |
| Progression.MultiplierOrder | shared/schema.ts:99-105 | the difficulty multipliers rise along Easy, Normal, Hard, Expert, Master |
| Progression.UnknownDifficultyIsEasy | shared/schema.ts:99-107 | an unknown difficulty earns what Easy earns |
| Progression.PassNeverEarnsLess | shared/schema.ts:115 | passing never earns less than failing the same play |
| Progression.AccuracyNeverEarnsLess | shared/schema.ts:110-112 | higher accuracy never earns less across the 70/85/95 tiers |
| Progression.HarderNeverEarnsLess | shared/schema.ts:99-107 | Easy ≤ Normal ≤ Hard ≤ Expert ≤ Master in experience earned for the same play |
| Progression.Isqrt | shared/schema.ts:124 | the integer square root: r² ≤ n < (r+1)² |
| Progression.CalculateLevel | shared/schema.ts:121-125 | level ≥ 1, and level L covers exactly [(L−1)²·100, L²·100) |
| Progression.LevelBandUnique | shared/schema.ts:121-125 | only one level's band contains a given experience total |
| Progression.FirstLevels | shared/schema.ts:122-124 | 0–99 experience is level 1, 100–399 is level 2, 400–899 is level 3 |
| Progression.LevelMonotone | shared/schema.ts:124 | more experience never means a lower level, and the level is at least 1 |
| Progression.ExperienceToNextLevel | shared/schema.ts:128-130 | the threshold of any level ≥ 1 is at least 100 |
| Progression.ThresholdStartsNextLevel | shared/schema.ts:121-130 | the threshold of level L is level L+1, and one point less is still level L |
| Progression.LevelRisesIffThreshold | shared/schema.ts:121-130 | gaining experience raises the level exactly when the new total reaches the old level's threshold |
| Progression.EntitledCharacters | shared/schema.ts:87-92 | a character is entitled exactly when its unlock level is at most the player's level |
| Progression.EntitlementsByLevel | shared/schema.ts:87-92 | ivy from level 1, scal from 5, lightren from 10, winter from 20 |
| Storage.NewUser | shared/schema.ts:37-44 | a new user's level matches its experience, its unlocked list has no repeats, and its selected character is one it has unlocked |
| Storage.WithExperience | server/storage.ts:61-64 | experience grows by the award, the level is recomputed, the play count rises by 1, and the total score rises by 10 × the award |
| Storage.AddExperience | server/storage.ts:57-79 | an unknown user is an error; otherwise only that user's row is rewritten |
| Storage.AddExperienceKeepsConsistent | server/storage.ts:61-62 | a user whose level matches its experience still does afterwards, and never loses a level |
| Storage.AddExperienceAdditive | server/storage.ts:61-64 | two awards reach the same experience, level and total score as their sum at once |
| Storage.UnlockedAfter | server/storage.ts:85-94 | the result has no repeats and holds exactly the stored characters plus those the level entitles |
| Storage.UnlockCharacters | server/storage.ts:81-108 | an unknown user is an error; the list is written only when it grew, and is returned either way |
| Storage.UnlockWritesIffNew | server/storage.ts:97-105 | for a stored list without repeats, a write happens exactly when some entitled character is new; otherwise the stored list comes back unchanged |
| Storage.UnlockKeepsConsistent | server/storage.ts:81-108 | unlocking keeps every user consistent |
| Storage.SetSelectedCharacter | server/storage.ts:110-121 | there is no guard; an unknown user updates no row |
| Storage.SaveHighScore | server/storage.ts:124-135 | a failed song is refused with the message "Only cleared songs can be saved to high scores", as is an unknown user; otherwise one row is appended with the next id |
| Storage.PassedRows | server/storage.ts:145-163 | exactly the passed rows, none more often than it is stored |
| Storage.RankedRowsArePassedRows | server/storage.ts:159-163 | the ranked list is a reordering of the passed rows: no row is dropped or repeated |
| Storage.GetLeaderboard | server/storage.ts:145-156 | at most 10 rows, each a passed row of that song and difficulty, and no row more often than it is stored |
| Storage.GetLeaderboardIsTopTen | server/storage.ts:145-156 | the rows are in descending score order, drawn from the stored rows without repeating any, and a passed row of the chart is left out only when ten better-or-equal rows are shown |
| Storage.GetAllLeaderboards | server/storage.ts:158-183 | a song has a leaderboard exactly when some passed row is for it, and a song and difficulty have a bucket exactly when some passed row is for that chart |
| Storage.AllLeaderboardsBuckets | server/storage.ts:159-180 | each bucket is the first 10 of its chart's rows in the ranked list: non-empty, at most 10 passed rows of that song and difficulty in descending order, no row more often than it is stored, and no left-out row of that chart beats a kept one |
| Storage.BucketIsChartTop | server/storage.ts:159-180 | the ranking facts of one bucket: its size, its rows' chart, their order, and that no left-out row of the chart beats a kept one |
| Storage.ChartTopOfRanked | server/storage.ts:167-180 | rows kept from a score-ordered list of passed rows are in descending order, and a left-out row of the chart means a full bucket whose every row scores at least as much |
| Storage.BucketRowsStored | server/storage.ts:159-180 | a bucket is the head of its chart's ranked rows and repeats no stored row |
| Routes.ProgressOf | server/routes.ts:21-24 | expToNext is the level's threshold; expNeededForNext = (2L−1)·100 = L²·100 − (L−1)²·100; expInCurrentLevel counts from the start of the level |
| Routes.ProgressInRange | server/routes.ts:21-24 | for a user whose level matches its experience, 0 ≤ expInCurrentLevel < expNeededForNext |
| Routes.GetAuthUser | server/routes.ts:12-36 | an unknown user is an error; otherwise the row and its progress figures |
| Routes.SaveIfPassed | server/routes.ts:48-66 | a high score is stored exactly when the song was passed and the user exists; a refused insert is swallowed and changes nothing |
| Routes.NewlyUnlocked | server/routes.ts:75-77 | exactly the characters unlocked after the submission that were not held before |
| Routes.SubmitScore | server/routes.ts:39-91 | a submission fails exactly when the user is unknown |
| Routes.SubmitScoreEffects | server/routes.ts:39-91 | a row is stored exactly when passed, carrying the same experience that is added to the user; the play count rises by 1; leveledUp compares old and new level; no held character is lost; other users are untouched |
| Routes.SubmitScoreKeepsConsistent | server/routes.ts:39-91 | a submission keeps every user's level in step with its experience |
| Routes.LeveledUpIffThresholdReached | server/routes.ts:74 | for a consistent user, leveledUp holds exactly when old experience plus the award reaches the old level's threshold |
| Routes.LevelUpIffThresholdReached | server/routes.ts:68-74 | for a consistent user row, adding experience raises the stored level exactly when the new total reaches the old level's threshold |
| Routes.SelectCharacter | server/routes.ts:128-145 | selecting a character the user has not unlocked, or as an unknown user, is refused with no update; otherwise only the selection changes |
| Routes.SubmitKeepsSelectionValid | server/routes.ts:39-91 | after a submission every user's selected character is still among its unlocked ones |
| Routes.AddExperienceKeepsSelection | server/storage.ts:61-76 | adding experience succeeds for a known user and leaves every selected character among its unlocked ones |
| Routes.UnlockKeepsSelection | server/storage.ts:81-104 | unlocking succeeds for a known user and only adds characters, so every selection stays unlocked |
| Routes.SelectKeepsSelectionValid | server/routes.ts:128-145 | selection keeps every user's selected character among its unlocked ones |
| Results.AllPerfectIsFullCombo | client/src/components/ResultsScreen.tsx:16-18 | all-perfect implies full combo, and with no judged notes neither flag holds |
| Results.TierOf | client/src/components/ResultsScreen.tsx:34-42 | the tiers in priority order: ALL PERFECT, FULL COMBO, then S ≥ 95, A ≥ 85, B ≥ 70, C ≥ 60, else D |
| Results.RankText | client/src/components/ResultsScreen.tsx:34-42 | the rank text is the text of that tier |
| Results.RankColour | client/src/components/ResultsScreen.tsx:20-28 | the rank colour is the colour of that tier |
| Results.TextAndColourDistinguishTiers | client/src/components/ResultsScreen.tsx:20-42 | different tiers have different texts and different colours |
| Results.ColourMatchesText | client/src/components/ResultsScreen.tsx:20-42 | two results share a rank text exactly when they share a rank colour |
| Results.PassWithoutFullComboRanksB | client/src/components/ResultsScreen.tsx:30-42 | a passing result without a full combo is ranked S, A or B |
| Results.FullComboIffPerfectAccuracy | client/src/components/ResultsScreen.tsx:16-42 | with at least one judged note, full combo holds exactly when the store's accuracy is 100; with none, the rank is S |
| HighScores.Load | client/src/components/HighScores.tsx:26-32 | nothing stored gives an empty list; otherwise the stored entries, rearranged into descending score order |
| HighScores.Grouped | client/src/components/HighScores.tsx:35-46 | a song has a group exactly when some entry is for it |
| HighScores.GroupedBuckets | client/src/components/HighScores.tsx:35-46 | each group holds the first 10 loaded entries of its song and difficulty: non-empty, and each entry of the loaded list with that song and difficulty |
| HighScores.GroupedBucketsAreTop | client/src/components/HighScores.tsx:26-46 | each group is in descending score order, and no entry left out of it beats a kept one |
| HighScores.GroupsDisjoint | client/src/components/HighScores.tsx:35-46 | an entry lands in at most one group |
| HighScores.Songs | client/src/components/HighScores.tsx:48 | each song with a group appears once, in alphabetical order |
| HighScores.Shown | client/src/components/HighScores.tsx:148-162 | for each song, exactly the non-empty groups of the five known difficulties are shown, each exactly as grouped |
| HighScores.SongsToDisplay | client/src/components/HighScores.tsx:89-91 | "all" shows every song in order; otherwise the chosen song is shown if it has a group, and nothing if not |
| HighScores.RankIcon | client/src/components/HighScores.tsx:72-79 | places 1–3 get gold, silver and bronze medals, and every other place gets "#n" |
| HighScores.RankIconInjective | client/src/components/HighScores.tsx:72-79 | different places get different icons |
| Backgrounds.SimplePixel | remove_backgrounds.py:24-29 | RGB is unchanged; all channels above 240 give alpha 0; otherwise all above 200 give alpha 50; otherwise the pixel, alpha included, is kept |
| Backgrounds.Simple | remove_backgrounds.py:18-32 | the same dimensions, with each pixel classified independently |
| Backgrounds.SimpleIdempotent | remove_backgrounds.py:24-29 | alpha only moves towards 0 or 50, and a second pass changes nothing |
| Backgrounds.Stride | remove_backgrounds.py:57-60 | the stride is at least 1, and at most a tenth of edges of 10 pixels or more |
| Backgrounds.EdgePositions | remove_backgrounds.py:57-60 | positions 0, stride, 2·stride, … all inside the edge, enough of them to reach its end |
| Backgrounds.EdgeSamples | remove_backgrounds.py:55-62 | top and bottom pixels at sampled columns, then left and right pixels at sampled rows; every sample is a pixel of the image, including the corner at (0, 0) |
| Backgrounds.MostFrequent | remove_backgrounds.py:74 | a colour of maximal count, with every earlier colour strictly rarer |
| Backgrounds.Dominant | remove_backgrounds.py:64-74 | the background colour occurs among the samples and no sampled colour occurs more often |
| Backgrounds.DominantIsFirstOfMostFrequent | remove_backgrounds.py:65-74 | among equally frequent colours, the one sampled first wins |
| Backgrounds.ColourDistance | remove_backgrounds.py:80 | the L1 colour distance is 0 exactly for the background colour |
| Backgrounds.AdvancedPixel | remove_backgrounds.py:76-90 | RGB is unchanged; alpha is 0 below distance 25, 100 below 60, and 255 otherwise |
| Backgrounds.Advanced | remove_backgrounds.py:43-102 | an image without pixels fails; otherwise the dimensions are kept and each pixel is banded against the dominant edge colour |
| Backgrounds.AdvancedClearsBackground | remove_backgrounds.py:80-84 | a pixel of exactly the background colour becomes fully transparent, and no pixel changes colour |
| Backgrounds.ProcessOne | remove_backgrounds.py:124-136 | a missing or undecodable input writes nothing; otherwise the portrait's output path gets the advanced result, or the simple one when the advanced method fails, and no other file changes |
| Backgrounds.ProcessAll | remove_backgrounds.py:122-136 | the success count is the number of portraits whose input exists and decodes, at most the number of portraits; every such portrait's output path is written, and every written file holds the conversion of a convertible portrait targeting it |
| Backgrounds.WrittenStep | remove_backgrounds.py:124-134 | processing one more portrait keeps every written file the conversion of a convertible portrait targeting it |
| Backgrounds.DistinctTargetsWritten | remove_backgrounds.py:122-136 | when the portraits target distinct files, the files written are exactly the targets of convertible portraits, each holding its own portrait's conversion |
| Backgrounds.JoinInjective | remove_backgrounds.py:125-126 | within one directory, different file names give different paths |
| Backgrounds.TargetsDistinct | remove_backgrounds.py:113-118 | the four portraits have four different output names |
| Backgrounds.Main | remove_backgrounds.py:104-138 | at most four portraits are converted, one per input that exists and decodes; the files written are exactly the outputs of those portraits, each holding its own portrait's advanced-else-simple conversion |
| Charts.BeatToMs | client/src/lib/charts.ts:17 | time × bpm = beat × 60000 |
| Charts.BeatRoundTrip | client/src/lib/charts.ts:17 | converting a beat to milliseconds and back gives the beat |
| Charts.BeatToMsIncreasing | client/src/lib/charts.ts:17 | at a positive tempo, a later beat is a later time |
| Charts.At | client/src/lib/charts.ts:4-7 | a chart note keeps its lane, which the type confines to 0..3, and its time is the beat at the given tempo |
| Charts.RegistryKeysMatchCharts | client/src/lib/charts.ts:248-254 | five charts are registered, each under "songId-difficulty" of its own fields |
| Charts.GetChart | client/src/lib/charts.ts:256-258 | the chart registered under "songId-difficulty", or none exactly when that key is absent; the lane type keeps every note of a found chart in lanes 0..3 |
| Charts.GetChartMatches | client/src/lib/charts.ts:248-258 | a lookup that finds a chart returns one whose song id and difficulty are the arguments, and song "1" finds all five difficulties |
| Charts.SongOneKeysSplit | client/src/lib/charts.ts:248-258 | each registered key is produced by exactly one song id and difficulty: "1-Easy" only by song "1" at Easy, and likewise for the other four |
| Ranking.SortBySorted | client/src/lib/stores/useGame.tsx:146 | the stable insertion sort orders any list by a total preorder |
| Ranking.TakeSortedIsTop | server/storage.ts:154-155 | the first k of a sorted list are a sub-multiset of the list, and anything left out is preceded by k kept elements |
| Ranking.TakeKeepsBest | server/storage.ts:154-155 | the first k of a sorted list stay sorted, and each kept element may precede each dropped one |
| Ranking.GroupBucket | server/storage.ts:168-180 | a bucket exists exactly when some entry matches it, and holds the first cap matching entries in input order |
| Ranking.GroupOfSorted | server/storage.ts:163-180 | grouping a sorted list gives sorted buckets of at most cap entries of their own song and difficulty, each kept entry preceding every dropped match |
| Ranking.GroupTop | server/storage.ts:163-180 | a bucket of a sorted list is the first cap matches, non-empty for a positive cap, sorted, drawn from the list, and leaves a match out only when full of entries that precede it |
| Ranking.GroupDisjoint | server/storage.ts:168-180 | no entry lies in two different buckets |
| Common.AddNew | server/storage.ts:85-94 | adding to an ordered set keeps the old list as a prefix, holds exactly the old and the offered elements, and repeats none when the old list repeated none |
| Text.NatToStringRoundTrip | client/src/lib/stores/useGame.tsx:140 | a rendered number reads back as itself, with no leading zero |
| Text.IntToStringInjective | client/src/lib/stores/useGame.tsx:140 | different numbers are rendered as different strings, so distinct timestamps give distinct ids |

## Left out

- Persistence and transport: Drizzle/Postgres queries, Express routing, status codes, authentication, `localStorage` and JSON parsing. The database is a value, a failed request is `Err`, and stored JSON is an optional list.
- Rendering and frame scheduling: canvas drawing, particles, `requestAnimationFrame`, the game loop's 16.67 ms delta cap, window listeners and their clean-up, and all React markup. Frame times and key events are parameters.
- Audio, voice lines, and the shorten_menu_music.py script: these are sound and timer calls only.
- MobileControls.tsx and SpeedFeedback.tsx: they read store fields that the scoring store does not define.
- Clocks and randomness: `Date.now()` readings, `Math.random()` results and generated note ids are parameters.
- Locale formatting (`toLocaleString`, `toLocaleDateString`), and the difficulty-colour and character-emoji lookup tables of the high-score screen.
- Floating point: multipliers, accuracy, positions and times are exact reals. IEEE double rounding, for instance at a `Math.floor` boundary or in `Math.sqrt`, is not captured.
- Routes.SubmitScore: the submitted score is a non-negative integer. A negative or non-integer score, which the handler would pass on unchecked, is not modelled.
- Routes.SubmitScore: the award uses the corrected multiplier (see Findings). As written, a difficulty naming an inherited object property such as "constructor" makes the award NaN. The user update then fails and the handler answers 500 even for a known user. The model answers an error only for an unknown user.
- Routes.SubmitScore: integers are unbounded. An experience or total score past the 32-bit range of its column makes the update fail and the handler answer 500; that path is not modelled.
- Storage.AddExperience: the 32-bit range of the `experience` and `total_score` columns is not modelled.
- Progression.DifficultyMultiplier: this is the corrected lookup, which the rest of the model uses. The lookup as written is Progression.MultiplierAsWritten, which yields NaN for inherited property names (see Findings).
- Storage.GetLeaderboard: rows of equal score keep their insertion order. SQL leaves the order of ties unspecified.
- Storage.GetAllLeaderboards: rows of equal score keep their insertion order. SQL leaves the order of ties unspecified.
- Storage.GetAllLeaderboards: song titles and difficulties are plain map keys. The source groups into plain objects, where a title or difficulty naming an inherited property ("constructor", "toString", "__proto__", and so on) behaves differently. Such a song is missing from the response, and "__proto__" writes into the shared object prototype. This is not modelled.
- HighScores.Grouped: song titles and difficulties are plain map keys. The client groups into a plain object as well, with the same inherited-property behaviour. This is not modelled.
- Storage.SaveHighScore: the only insert failure modelled is the missing-user foreign key. Other database errors are not.
- Storage.SaveHighScore: a new row's id is the table length plus one. A serial column also consumes a value on each refused insert, so later ids can be larger; only distinctness is kept.
- Engine.UpdateNotes: the source moves the stored note objects in place. The model returns moved copies, which gives the same resulting store.
- Engine.GenerateNote: the lane and jitter random draws are given as numbers in [0, 1).
- Charts.BeatToMs: requires a positive tempo. A zero tempo would give a non-finite number in JavaScript.
- Charts: the time order of the notes within each chart is not stated.
- Backgrounds: PNG decoding and encoding, RGBA conversion, directory creation, progress messages, and save failures. An input that exists is either decoded or fails both methods.
- Results: the screen renders nothing without a selected song and character. That check is presentation only.
- Text.ToLower: only ASCII letters are lowered. Full Unicode case mapping is not modelled. For example, JavaScript lowers U+212A KELVIN SIGN to "k", so that key would act as the k lane key; the model treats it as no lane key.
- Text.LexLe: strings are compared by code point. JavaScript's default `sort()` compares UTF-16 code units. The two orders differ only when a title mixes a character above U+FFFF with one in U+E000–U+FFFF.
- HighScores.Songs: the song order is Text.LexLe, so the UTF-16 difference above applies.
- Text.NatToString: digits only. `String(n)` switches to exponent notation from 1e21, far beyond any clock reading used as an id.
- Game.EntryOf: one clock reading gives both the id and the timestamp. The source reads `Date.now()` twice, and the two readings can differ by a millisecond.
- Game.SelectSong: the song screen selects a song without a difficulty, and both the end-of-game save and the results screen read that difficulty's level. Game.EndOfGame models the save's throw as `Crash`. The results screen's throw while rendering is not modelled separately.
- client/src/types/game.ts declares types only and has no behaviour.

## Findings

| source | as written | input that shows it | evidently intended | confidence | as-written member | corrected member |
|---|---|---|---|---|---|---|
| shared/schema.ts:107 | the multiplier lookup on a plain object finds inherited properties, which are truthy, so the 1.0 fallback is skipped and the award is NaN | difficulty "constructor", for example 5000 points at 90% passed | an unknown difficulty earns the Easy multiplier 1.0 (7 experience in the example) | high; not executed | Progression.ConstructorDifficultyIsNaN | Progression.UnknownDifficultyIsEasy |
