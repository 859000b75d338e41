/**
 * The client's game store (client/src/lib/stores/useGame.tsx): the screen/phase
 * machine, the selected song and character, the Master unlock list, the global
 * speed multiplier and the local top-100 high-score table.  Each action is a
 * function from the store state to the next state.
 */
module Game {
  import opened Common
  import opened Ranking
  import Text

  datatype Phase = Ready | SongSelect | CharacterSelect | HighScores | Playing | Paused | Ended

  /** One difficulty of a song as listed on the song screen; `level` is the difficulty name. */
  datatype SongDifficulty = SongDifficulty(level: string, bpm: int, duration: string, noteSpeed: real, noteFrequency: real)

  datatype Song = Song(id: string, title: string, artist: string, difficulties: seq<SongDifficulty>, audioFile: string)

  /**
   * A song together with the difficulty chosen for it.  The difficulty is optional
   * because the song screen selects a song without naming one, which leaves the
   * store's `selectedDifficulty` undefined.
   */
  datatype SelectedSong = SelectedSong(song: Song, selectedDifficulty: Option<SongDifficulty>)

  /** A playable character, reduced to the fields the store and the score table read. */
  datatype Character = Character(id: string, name: string)

  datatype GameState = GameState(
    phase: Phase,
    selectedSong: Option<SelectedSong>,
    selectedCharacter: Option<Character>,
    expertFullCombos: seq<string>,
    speedMultiplier: real)

  /** The store as created: ready, no song, Ivy selected, nothing unlocked, normal speed. */
  const Initial: GameState := GameState(Ready, None, Some(Character("ivy", "Ivy")), [], 1.0)

  // ---------------------------------------------------------------------------
  // Phase actions
  // ---------------------------------------------------------------------------

  /** `setPhase(phase)`: unguarded. */
  function SetPhase(g: GameState, phase: Phase): (g': GameState)
    ensures g'.phase == phase && g'.(phase := g.phase) == g
  {
    g.(phase := phase)
  }

  function ShowSongSelect(g: GameState): (g': GameState)
    ensures g'.phase == SongSelect && g'.(phase := g.phase) == g
  {
    SetPhase(g, SongSelect)
  }

  function ShowCharacterSelect(g: GameState): (g': GameState)
    ensures g'.phase == CharacterSelect && g'.(phase := g.phase) == g
  {
    SetPhase(g, CharacterSelect)
  }

  function ShowHighScores(g: GameState): (g': GameState)
    ensures g'.phase == HighScores && g'.(phase := g.phase) == g
  {
    SetPhase(g, HighScores)
  }

  /** `start()`: song selection moves to playing, provided a song has been chosen; otherwise nothing changes. */
  function Start(g: GameState): (g': GameState)
    ensures g'.phase == Playing <==> g.phase == Playing || (g.phase == SongSelect && g.selectedSong.Some?)
    ensures g'.(phase := g.phase) == g
    ensures g'.phase != g.phase ==> g.phase == SongSelect && g'.phase == Playing
  {
    if g.phase == SongSelect && g.selectedSong.Some? then g.(phase := Playing) else g
  }

  /** `pause()`: only a running game pauses. */
  function Pause(g: GameState): (g': GameState)
    ensures g.phase == Playing ==> g'.phase == Paused
    ensures g.phase != Playing ==> g' == g
    ensures g'.(phase := g.phase) == g
  {
    if g.phase == Playing then g.(phase := Paused) else g
  }

  /** `resume()`: only a paused game resumes. */
  function Resume(g: GameState): (g': GameState)
    ensures g.phase == Paused ==> g'.phase == Playing
    ensures g.phase != Paused ==> g' == g
    ensures g'.(phase := g.phase) == g
  {
    if g.phase == Paused then g.(phase := Playing) else g
  }

  /** `end()`: only a running game ends. */
  function End(g: GameState): (g': GameState)
    ensures g.phase == Playing ==> g'.phase == Ended
    ensures g.phase != Playing ==> g' == g
    ensures g'.(phase := g.phase) == g
  {
    if g.phase == Playing then g.(phase := Ended) else g
  }

  /** `restart()`: back to the title with no song chosen; character, unlocks and speed stay. */
  function Restart(g: GameState): (g': GameState)
    ensures g'.phase == Ready && g'.selectedSong == None
    ensures g'.selectedCharacter == g.selectedCharacter
    ensures g'.expertFullCombos == g.expertFullCombos
    ensures g'.speedMultiplier == g.speedMultiplier
  {
    g.(phase := Ready, selectedSong := None)
  }

  /** Pausing and then resuming a running game gives back the same state, and the other way round. */
  lemma PauseResumeRoundTrip(g: GameState)
    ensures g.phase == Playing ==> Resume(Pause(g)) == g
    ensures g.phase == Paused ==> Pause(Resume(g)) == g
  {
  }

  /** Restarting twice is restarting once. */
  lemma RestartIdempotent(g: GameState)
    ensures Restart(Restart(g)) == Restart(g)
  {
  }

  // ---------------------------------------------------------------------------
  // Selection, unlocks and speed
  // ---------------------------------------------------------------------------

  /**
   * `selectSong(song, difficulty)`: the phase is not touched.  `None` stands for the
   * call `selectSong(song)` that the song screen makes.
   */
  function SelectSong(g: GameState, song: Song, difficulty: Option<SongDifficulty>): (g': GameState)
    ensures g'.selectedSong == Some(SelectedSong(song, difficulty))
    ensures g'.(selectedSong := g.selectedSong) == g
  {
    g.(selectedSong := Some(SelectedSong(song, difficulty)))
  }

  function SetSelectedCharacter(g: GameState, character: Character): (g': GameState)
    ensures g'.selectedCharacter == Some(character)
    ensures g'.(selectedCharacter := g.selectedCharacter) == g
  {
    g.(selectedCharacter := Some(character))
  }

  /** `unlockMaster(songId)`: appends the song id, even when it is already listed. */
  function UnlockMaster(g: GameState, songId: string): (g': GameState)
    ensures |g'.expertFullCombos| == |g.expertFullCombos| + 1
    ensures g'.expertFullCombos[..|g.expertFullCombos|] == g.expertFullCombos
    ensures g'.expertFullCombos[|g.expertFullCombos|] == songId
    ensures g'.(expertFullCombos := g.expertFullCombos) == g
  {
    g.(expertFullCombos := g.expertFullCombos + [songId])
  }

  const MinSpeed: real := 0.5
  const MaxSpeed: real := 2.0

  /** `Math.max(0.5, Math.min(2.0, multiplier))` */
  function ClampSpeed(multiplier: real): (r: real)
    ensures MinSpeed <= r <= MaxSpeed
    ensures MinSpeed <= multiplier <= MaxSpeed ==> r == multiplier
    ensures multiplier < MinSpeed ==> r == MinSpeed
    ensures multiplier > MaxSpeed ==> r == MaxSpeed
  {
    MaxReal(MinSpeed, MinReal(MaxSpeed, multiplier))
  }

  /** The clamp picks the point of [0.5, 2.0] nearest the request, and clamping twice changes nothing. */
  lemma ClampSpeedNearest(multiplier: real, y: real)
    requires MinSpeed <= y <= MaxSpeed
    ensures AbsReal(ClampSpeed(multiplier) - multiplier) <= AbsReal(y - multiplier)
    ensures ClampSpeed(ClampSpeed(multiplier)) == ClampSpeed(multiplier)
  {
  }

  function SetSpeedMultiplier(g: GameState, multiplier: real): (g': GameState)
    ensures g'.speedMultiplier == ClampSpeed(multiplier)
    ensures MinSpeed <= g'.speedMultiplier <= MaxSpeed
    ensures g'.(speedMultiplier := g.speedMultiplier) == g
  {
    g.(speedMultiplier := ClampSpeed(multiplier))
  }

  /** Setting the speed is idempotent, and an in-range speed is stored as given. */
  lemma SetSpeedIdempotent(g: GameState, multiplier: real)
    ensures SetSpeedMultiplier(SetSpeedMultiplier(g, multiplier), multiplier) == SetSpeedMultiplier(g, multiplier)
    ensures MinSpeed <= multiplier <= MaxSpeed ==> SetSpeedMultiplier(g, multiplier).speedMultiplier == multiplier
  {
  }

  // ---------------------------------------------------------------------------
  // The guarded phase machine
  // ---------------------------------------------------------------------------

  /** The actions the screens invoke, other than the unguarded `setPhase`. */
  datatype Action =
    | DoShowSongSelect | DoShowCharacterSelect | DoShowHighScores
    | DoSelectSong(song: Song, difficulty: Option<SongDifficulty>)
    | DoSetCharacter(character: Character)
    | DoUnlockMaster(songId: string)
    | DoSetSpeed(multiplier: real)
    | DoStart | DoPause | DoResume | DoEnd | DoRestart

  function Step(g: GameState, a: Action): GameState {
    match a
    case DoShowSongSelect => ShowSongSelect(g)
    case DoShowCharacterSelect => ShowCharacterSelect(g)
    case DoShowHighScores => ShowHighScores(g)
    case DoSelectSong(song, difficulty) => SelectSong(g, song, difficulty)
    case DoSetCharacter(character) => SetSelectedCharacter(g, character)
    case DoUnlockMaster(songId) => UnlockMaster(g, songId)
    case DoSetSpeed(multiplier) => SetSpeedMultiplier(g, multiplier)
    case DoStart => Start(g)
    case DoPause => Pause(g)
    case DoResume => Resume(g)
    case DoEnd => End(g)
    case DoRestart => Restart(g)
  }

  /** The phases of a game in progress or just finished. */
  predicate InGame(p: Phase) {
    p == Playing || p == Paused || p == Ended
  }

  /** The only ways into or between the in-game phases. */
  predicate GameEdge(from: Phase, to: Phase) {
    || (from == SongSelect && to == Playing)
    || (from == Playing && to == Paused)
    || (from == Paused && to == Playing)
    || (from == Playing && to == Ended)
  }

  /** The store invariant: a game in progress always has a song, and the speed is in range. */
  predicate Valid(g: GameState) {
    (InGame(g.phase) ==> g.selectedSong.Some?) && MinSpeed <= g.speedMultiplier <= MaxSpeed
  }

  /**
   * Every action keeps the invariant, and an action that enters or moves between
   * in-game phases follows one of the four guarded edges.
   */
  lemma StepKeepsValid(g: GameState, a: Action)
    requires Valid(g)
    ensures Valid(Step(g, a))
    ensures var p, q := g.phase, Step(g, a).phase;
      p != q && InGame(q) ==> GameEdge(p, q)
  {
  }

  function Run(g: GameState, actions: seq<Action>): GameState
    decreases |actions|
  {
    if |actions| == 0 then g else Run(Step(g, actions[0]), actions[1..])
  }

  /** Any sequence of actions from the initial store keeps the invariant. */
  lemma {:induction false} RunKeepsValid(g: GameState, actions: seq<Action>)
    requires Valid(g)
    ensures Valid(Run(g, actions))
    decreases |actions|
  {
    if |actions| > 0 {
      StepKeepsValid(g, actions[0]);
      RunKeepsValid(Step(g, actions[0]), actions[1..]);
    }
  }

  lemma InitialValid()
    ensures Valid(Initial) && Initial.phase == Ready
  {
  }

  // ---------------------------------------------------------------------------
  // Local high-score table
  // ---------------------------------------------------------------------------

  /** What the game screen hands to `saveHighScore` when a song ends. */
  datatype ScoreData = ScoreData(songTitle: string, difficulty: string, character: string, score: int, accuracy: real, combo: int)

  /**
   * What the game screen's end-of-game effect does: nothing until the game has ended
   * with a song and a character chosen and no score saved yet; then it reads the
   * chosen difficulty's level, which throws when no difficulty was chosen.
   */
  datatype EndOutcome = NothingToSave | Crash | Save(data: ScoreData)

  function EndOfGame(g: GameState, alreadySaved: bool, score: int, accuracy: real, maxCombo: int): (r: EndOutcome)
    ensures r.NothingToSave? <==>
      g.phase != Ended || alreadySaved || g.selectedSong.None? || g.selectedCharacter.None?
    ensures r.Crash? <==>
      !r.NothingToSave? && g.selectedSong.value.selectedDifficulty.None?
    ensures r.Save? ==>
      && r.data.songTitle == g.selectedSong.value.song.title
      && r.data.difficulty == g.selectedSong.value.selectedDifficulty.value.level
      && r.data.character == g.selectedCharacter.value.name
      && r.data.score == score && r.data.accuracy == accuracy && r.data.combo == maxCombo
  {
    if g.phase != Ended || alreadySaved || g.selectedSong.None? || g.selectedCharacter.None? then NothingToSave
    else
      var chosen := g.selectedSong.value;
      match chosen.selectedDifficulty
      case None => Crash
      case Some(d) => Save(ScoreData(chosen.song.title, d.level, g.selectedCharacter.value.name, score, accuracy, maxCombo))
  }

  /**
   * The song screen selects a song without a difficulty, so a game started from it
   * and played to the end crashes the end-of-game save instead of recording a score.
   */
  lemma SongScreenGameCrashesAtEnd(g: GameState, song: Song, score: int, accuracy: real, maxCombo: int)
    requires g.phase == SongSelect && g.selectedCharacter.Some?
    ensures var ended := End(Start(SelectSong(g, song, None)));
      ended.phase == Ended && EndOfGame(ended, false, score, accuracy, maxCombo) == Crash
  {
  }

  /**
   * With a difficulty passed along, the same path ends with the score saved under that
   * difficulty's level, exactly once.
   */
  lemma ChosenDifficultySavesAtEnd(g: GameState, song: Song, d: SongDifficulty, score: int, accuracy: real, maxCombo: int)
    requires g.phase == SongSelect && g.selectedCharacter.Some?
    ensures var ended := End(Start(SelectSong(g, song, Some(d))));
      && ended.phase == Ended
      && EndOfGame(ended, false, score, accuracy, maxCombo)
         == Save(ScoreData(song.title, d.level, g.selectedCharacter.value.name, score, accuracy, maxCombo))
      && EndOfGame(ended, true, score, accuracy, maxCombo) == NothingToSave
  {
  }

  /** A stored entry: the data plus an id and timestamp from the clock and a default player name. */
  datatype LocalScore = LocalScore(
    id: string,
    playerName: string,
    timestamp: int,
    songTitle: string,
    difficulty: string,
    character: string,
    score: int,
    accuracy: real,
    combo: int)

  const LocalTableSize: nat := 100

  /** `sort((a, b) => b.score - a.score)`: a higher or equal score may come first. */
  function HigherFirst(a: LocalScore, b: LocalScore): bool {
    a.score >= b.score
  }

  lemma HigherFirstIsTotalPreorder()
    ensures TotalPreorder(HigherFirst)
  {
  }

  function EntryOf(data: ScoreData, now: int): (e: LocalScore)
    ensures e.id == Text.IntToString(now) && e.timestamp == now && e.playerName == "Player"
    ensures e.score == data.score && e.songTitle == data.songTitle && e.difficulty == data.difficulty
  {
    LocalScore(Text.IntToString(now), "Player", now, data.songTitle, data.difficulty, data.character, data.score, data.accuracy, data.combo)
  }

  /**
   * `saveHighScore(data)` on the stored table: append the new entry stamped with the
   * clock reading `now`, sort by descending score and keep the first hundred.
   */
  function SaveHighScore(stored: seq<LocalScore>, data: ScoreData, now: int): (r: seq<LocalScore>)
    ensures |r| == Min(LocalTableSize, |stored| + 1)
    ensures forall i, j :: 0 <= i < j < |r| ==> r[i].score >= r[j].score
    ensures forall e :: e in r ==> e in stored || e == EntryOf(data, now)
    ensures multiset(r) <= multiset(stored + [EntryOf(data, now)])
  {
    var entry := EntryOf(data, now);
    var all := stored + [entry];
    TopByScore(all);
    assert forall e :: e in all ==> e in stored || e == entry;
    Take(SortBy(all, HigherFirst), LocalTableSize)
  }

  /** The ranking facts for this table, stated on scores. */
  lemma TopByScore(all: seq<LocalScore>)
    ensures var r := Take(SortBy(all, HigherFirst), LocalTableSize);
      && |r| == Min(LocalTableSize, |all|)
      && (forall i, j :: 0 <= i < j < |r| ==> r[i].score >= r[j].score)
      && multiset(r) <= multiset(all)
      && (forall e :: e in r ==> e in all)
      && (forall y :: y in all && y !in r ==> |r| == LocalTableSize && forall k :: k in r ==> k.score >= y.score)
      && (|all| <= LocalTableSize ==> forall y :: y in all ==> y in r)
  {
    HigherFirstIsTotalPreorder();
    TakeSortedIsTop(all, LocalTableSize, HigherFirst);
  }

  /**
   * The table keeps the best hundred: an entry is dropped only when a hundred are
   * kept, each scoring at least as much; with fewer than a hundred stored, the new
   * entry and every stored one survive.
   */
  lemma SaveHighScoreKeepsBest(stored: seq<LocalScore>, data: ScoreData, now: int)
    ensures var r := SaveHighScore(stored, data, now);
      forall e :: (e in stored || e == EntryOf(data, now)) && e !in r ==>
        |r| == LocalTableSize && forall k :: k in r ==> k.score >= e.score
    ensures |stored| < LocalTableSize ==>
      var r := SaveHighScore(stored, data, now);
      EntryOf(data, now) in r && forall e :: e in stored ==> e in r
  {
    TopByScore(stored + [EntryOf(data, now)]);
  }
}
