/**
 * The per-frame logic of the game engine (client/src/lib/gameEngine.ts): canvas
 * geometry, keyboard handling with key-repeat suppression, judging a key press
 * against the closest note of its lane, moving notes and judging the ones that
 * scrolled past, and the note spawner's shrinking interval.
 *
 * The engine reads and writes the scoring store (module Rhythm) and ends the
 * game through the game store (module Game).  Clock readings, `Math.random()`
 * results and generated note ids are parameters.
 */
module Engine {
  import opened Common
  import opened Rhythm
  import Text
  import Game

  // ---------------------------------------------------------------------------
  // Geometry
  // ---------------------------------------------------------------------------

  const LaneCount: nat := 4

  /** The hit line sits this far above the bottom edge. */
  const HitZoneOffset: real := 120.0

  datatype Geometry = Geometry(width: real, height: real, laneWidth: real, hitZoneY: real)

  /** `resize(width, height)`: four equal lanes, the hit line 120 pixels above the bottom. */
  function Resize(width: real, height: real): (g: Geometry)
    ensures g.width == width && g.height == height
    ensures g.laneWidth * LaneCount as real == width
    ensures height - g.hitZoneY == HitZoneOffset
  {
    Geometry(width, height, width / 4.0, height - HitZoneOffset)
  }

  /** The x coordinate at which hit particles of a lane appear: the lane's centre. */
  function LaneCentre(g: Geometry, lane: nat): real {
    lane as real * g.laneWidth + g.laneWidth / 2.0
  }

  /** On a canvas of positive width the lane centres lie inside it, left to right. */
  lemma LaneCentresInside(width: real, height: real, lane: nat)
    requires width > 0.0 && lane < LaneCount
    ensures var g := Resize(width, height);
      0.0 < LaneCentre(g, lane) < width
      && (lane + 1 < LaneCount ==> LaneCentre(g, lane) < LaneCentre(g, lane + 1))
  {
    var g := Resize(width, height);
    var q := width / 4.0;
    assert q > 0.0;
    assert LaneCentre(g, lane) == lane as real * q + q / 2.0;
    assert lane as real * q <= 3.0 * q by {
      assert lane as real <= 3.0;
    }
  }

  // ---------------------------------------------------------------------------
  // Keys
  // ---------------------------------------------------------------------------

  /** The lane keys, left to right. */
  const LaneKeys: seq<string> := ["a", "s", "k", "l"]

  /** `['a', 's', 'k', 'l'].indexOf(key)`, with -1 as `None`. */
  function LaneOf(key: string): (r: Option<nat>)
    ensures r.None? <==> key !in LaneKeys
    ensures r.Some? ==> r.value < LaneCount && LaneKeys[r.value] == key
  {
    if key == "a" then Some(0)
    else if key == "s" then Some(1)
    else if key == "k" then Some(2)
    else if key == "l" then Some(3)
    else None
  }

  /** Each lane's key maps back to that lane. */
  lemma LaneOfKey(lane: nat)
    requires lane < LaneCount
    ensures LaneOf(LaneKeys[lane]) == Some(lane)
  {
  }

  /** The keys currently held down and the frame at which each was last pressed. */
  datatype Keys = Keys(held: set<string>, pressedFrames: map<string, int>)

  /**
   * The keydown listener: the key is lower-cased; a lane key that is not already
   * held becomes held and produces a press to judge; anything else is ignored.
   */
  function KeyDown(k: Keys, rawKey: string, frame: int): (r: (Keys, Option<string>))
    ensures var key := Text.ToLower(rawKey);
      r.1.Some? <==> key in LaneKeys && key !in k.held
    ensures r.1.Some? ==> r.1.value == Text.ToLower(rawKey) && r.1.value in r.0.held
    ensures r.1.Some? ==> r.0.pressedFrames == k.pressedFrames[r.1.value := frame]
    ensures r.1.None? ==> r.0 == k
  {
    var key := Text.ToLower(rawKey);
    if key in LaneKeys && key !in k.held then
      (Keys(k.held + {key}, k.pressedFrames[key := frame]), Some(key))
    else (k, None)
  }

  /** The keyup listener: a lane key is released; other keys are ignored. */
  function KeyUp(k: Keys, rawKey: string): (r: Keys)
    ensures Text.ToLower(rawKey) in LaneKeys ==> r.held == k.held - {Text.ToLower(rawKey)}
    ensures Text.ToLower(rawKey) !in LaneKeys ==> r == k
    ensures r.pressedFrames == k.pressedFrames
  {
    var key := Text.ToLower(rawKey);
    if key in LaneKeys then k.(held := k.held - {key}) else k
  }

  /**
   * Holding a key judges once: a second keydown before the keyup produces no press,
   * and after the keyup the next keydown presses again.
   */
  lemma KeyRepeatSuppressed(k: Keys, rawKey: string, f1: int, f2: int, f3: int)
    requires Text.ToLower(rawKey) in LaneKeys && Text.ToLower(rawKey) !in k.held
    ensures var (k1, p1) := KeyDown(k, rawKey, f1);
      var (k2, p2) := KeyDown(k1, rawKey, f2);
      var k3 := KeyUp(k2, rawKey);
      && p1 == Some(Text.ToLower(rawKey))
      && p2 == None
      && KeyDown(k3, rawKey, f3).1 == Some(Text.ToLower(rawKey))
  {
  }

  // ---------------------------------------------------------------------------
  // Judging a key press
  // ---------------------------------------------------------------------------

  /** A note's distance from the hit line. */
  function Distance(n: Note, hitZoneY: real): (d: real)
    ensures d >= 0.0
  {
    AbsReal(n.y - hitZoneY)
  }

  /** The judgement bands: within 30 pixels perfect, within 60 good, otherwise a miss. */
  const PerfectWindow: real := 30.0
  const GoodWindow: real := 60.0

  function Judge(distance: real): (t: Timing)
    ensures t == Perfect <==> distance <= PerfectWindow
    ensures t == Good <==> PerfectWindow < distance <= GoodWindow
    ensures t == Miss <==> distance > GoodWindow
  {
    if distance <= PerfectWindow then Perfect
    else if distance <= GoodWindow then Good
    else Miss
  }

  /** How good a judgement is: miss 0, good 1, perfect 2. */
  function Rank(t: Timing): nat {
    match t
    case Miss => 0
    case Good => 1
    case Perfect => 2
  }

  /** Closer is never judged worse. */
  lemma JudgeMonotone(d1: real, d2: real)
    requires d1 <= d2
    ensures Rank(Judge(d1)) >= Rank(Judge(d2))
  {
  }

  /**
   * `notesInLane.reduce(...)` with no initial value: the index of the note closest
   * to the hit line, the earliest one among equally close notes.
   */
  function Closest(ns: seq<Note>, hitZoneY: real): (k: nat)
    requires |ns| > 0
    ensures k < |ns|
    ensures forall j :: 0 <= j < |ns| ==> Distance(ns[k], hitZoneY) <= Distance(ns[j], hitZoneY)
    ensures forall j :: 0 <= j < k ==> Distance(ns[j], hitZoneY) > Distance(ns[k], hitZoneY)
    decreases |ns|
  {
    if |ns| == 1 then 0
    else
      var init := ns[..|ns| - 1];
      var best := Closest(init, hitZoneY);
      assert forall j :: 0 <= j < |init| ==> ns[j] == init[j];
      if Distance(ns[|ns| - 1], hitZoneY) < Distance(ns[best], hitZoneY) then |ns| - 1 else best
  }

  /** The notes a press in `lane` may judge: unhit notes of that lane, in list order. */
  function Candidates(notes: seq<Note>, lane: nat): (r: seq<Note>)
    ensures forall n :: n in r <==> n in notes && n.lane == lane && !n.hit
  {
    Filter(notes, (n: Note) => n.lane == lane as int && !n.hit)
  }

  /** The note a press in `lane` judges, if the lane has any unhit note. */
  function Target(notes: seq<Note>, lane: nat, hitZoneY: real): (r: Option<Note>)
    ensures r.None? <==> forall n :: n in notes ==> n.lane != lane || n.hit
    ensures r.Some? ==> r.value in notes && r.value.lane == lane && !r.value.hit
    ensures r.Some? ==> forall n :: n in notes && n.lane == lane && !n.hit ==>
                          Distance(r.value, hitZoneY) <= Distance(n, hitZoneY)
  {
    var c := Candidates(notes, lane);
    if |c| == 0 then None
    else
      var k := Closest(c, hitZoneY);
      assert forall n :: n in c ==> exists j :: 0 <= j < |c| && c[j] == n;
      Some(c[k])
  }

  /**
   * `handleKeyPress(key)`: a key outside the lane keys, or a lane without an unhit
   * note, leaves the scoring store untouched; otherwise the target note is judged by
   * its distance from the hit line, a miss included.
   */
  function HandleKeyPress(st: RhythmState, hitZoneY: real, key: string): (r: RhythmState)
    ensures LaneOf(key).None? ==> r == st
    ensures LaneOf(key).Some? && Target(st.notes, LaneOf(key).value, hitZoneY).None? ==> r == st
    ensures LaneOf(key).Some? && Target(st.notes, LaneOf(key).value, hitZoneY).Some? ==>
      var n := Target(st.notes, LaneOf(key).value, hitZoneY).value;
      r == HitNote(st, n.id, Judge(Distance(n, hitZoneY)))
  {
    match LaneOf(key)
    case None => st
    case Some(lane) =>
      match Target(st.notes, lane, hitZoneY)
      case None => st
      case Some(n) => HitNote(st, n.id, Judge(Distance(n, hitZoneY)))
  }

  /** Among equally close candidates the press judges the earliest in list order. */
  lemma TargetIsEarliestClosest(notes: seq<Note>, lane: nat, hitZoneY: real)
    requires Target(notes, lane, hitZoneY).Some?
    ensures var c := Candidates(notes, lane);
      var t := Target(notes, lane, hitZoneY).value;
      exists k :: 0 <= k < |c| && c[k] == t && forall j :: 0 <= j < k ==> Distance(c[j], hitZoneY) > Distance(t, hitZoneY)
  {
    var c := Candidates(notes, lane);
    var k := Closest(c, hitZoneY);
    assert c[k] == Target(notes, lane, hitZoneY).value;
  }

  /** A press on an empty lane changes nothing; otherwise exactly one judgement is counted. */
  lemma HandleKeyPressCounts(st: RhythmState, hitZoneY: real, key: string)
    ensures var r := HandleKeyPress(st, hitZoneY, key);
      r == st || Total(r.hitCounts) == Total(st.hitCounts) + 1
  {
    var r := HandleKeyPress(st, hitZoneY, key);
    if r != st {
      var n := Target(st.notes, LaneOf(key).value, hitZoneY).value;
      var t := Judge(Distance(n, hitZoneY));
      assert Count(r.hitCounts, t) == Count(st.hitCounts, t) + 1;
      assert forall u :: u != t ==> Count(r.hitCounts, u) == Count(st.hitCounts, u);
      assert Count(r.hitCounts, Perfect) == r.hitCounts.perfect && Count(r.hitCounts, Good) == r.hitCounts.good;
      assert Count(r.hitCounts, Miss) == r.hitCounts.miss;
      assert Count(st.hitCounts, Perfect) == st.hitCounts.perfect && Count(st.hitCounts, Good) == st.hitCounts.good;
      assert Count(st.hitCounts, Miss) == st.hitCounts.miss;
    }
  }

  // ---------------------------------------------------------------------------
  // Moving notes
  // ---------------------------------------------------------------------------

  /** Notes fall at 300 pixels per second. */
  const NoteSpeed: real := 300.0

  /** A note this far below the hit line has been missed. */
  const MissMargin: real := 100.0

  function Moved(n: Note, dy: real): Note {
    n.(y := n.y + dy)
  }

  /** An unhit note that the frame carries past the miss line. */
  predicate PassedBy(n: Note, hitZoneY: real, dy: real) {
    !n.hit && Moved(n, dy).y > hitZoneY + MissMargin
  }

  /** The notes kept by the frame's filter, moved down. */
  function Survivors(notes: seq<Note>, hitZoneY: real, dy: real): (r: seq<Note>)
    ensures |r| <= |notes|
    ensures forall n :: n in r ==> !n.hit && n.y <= hitZoneY + MissMargin
    ensures forall i :: 0 <= i < |notes| && !notes[i].hit && !PassedBy(notes[i], hitZoneY, dy) ==> Moved(notes[i], dy) in r
    ensures forall n :: n in r ==> exists i :: 0 <= i < |notes| && n == Moved(notes[i], dy) && !notes[i].hit && !PassedBy(notes[i], hitZoneY, dy)
    decreases |notes|
  {
    if |notes| == 0 then []
    else
      var rest := Survivors(notes[1..], hitZoneY, dy);
      var n := notes[0];
      assert forall i :: 1 <= i < |notes| ==> notes[i] == notes[1..][i - 1];
      if n.hit || PassedBy(n, hitZoneY, dy) then rest
      else [Moved(n, dy)] + rest
  }

  /** Every note of a list moved down by `dy`, in the same order. */
  function MoveAll(xs: seq<Note>, dy: real): (r: seq<Note>)
    ensures |r| == |xs|
    ensures forall k :: 0 <= k < |xs| ==> r[k] == Moved(xs[k], dy)
    decreases |xs|
  {
    if |xs| == 0 then [] else [Moved(xs[0], dy)] + MoveAll(xs[1..], dy)
  }

  /**
   * The survivors are exactly the notes the filter keeps, in their list order,
   * each moved down: the order the next frame's earliest-wins tie-break reads.
   */
  lemma {:induction false} SurvivorsKeepOrder(notes: seq<Note>, hitZoneY: real, dy: real, keep: Note -> bool)
    requires forall n :: keep(n) == (!n.hit && !PassedBy(n, hitZoneY, dy))
    ensures Survivors(notes, hitZoneY, dy) == MoveAll(Filter(notes, keep), dy)
    decreases |notes|
  {
    if |notes| > 0 {
      SurvivorsKeepOrder(notes[1..], hitZoneY, dy, keep);
      var f1 := Filter(notes[1..], keep);
      if keep(notes[0]) {
        assert Filter(notes, keep) == [notes[0]] + f1;
        assert ([notes[0]] + f1)[1..] == f1;
      } else {
        assert Filter(notes, keep) == f1;
      }
    }
  }

  /** The misses the frame reports: one per unhit note carried past the miss line, in list order. */
  function MissesOf(notes: seq<Note>, hitZoneY: real, dy: real): (js: seq<Judgement>)
    ensures |js| <= |notes|
    ensures forall j :: j in js ==> j.timing == Miss
    ensures forall i :: 0 <= i < |notes| && PassedBy(notes[i], hitZoneY, dy) ==> Judgement(notes[i].id, Miss) in js
    ensures forall j :: j in js ==> exists i :: 0 <= i < |notes| && PassedBy(notes[i], hitZoneY, dy) && j.noteId == notes[i].id
    decreases |notes|
  {
    if |notes| == 0 then []
    else
      var rest := MissesOf(notes[1..], hitZoneY, dy);
      assert forall i :: 1 <= i < |notes| ==> notes[i] == notes[1..][i - 1];
      if PassedBy(notes[0], hitZoneY, dy) then [Judgement(notes[0].id, Miss)] + rest else rest
  }

  /** Every note is either hit, kept, or reported as missed. */
  lemma {:induction false} FrameAccountsForEveryNote(notes: seq<Note>, hitZoneY: real, dy: real)
    ensures |Survivors(notes, hitZoneY, dy)| + |MissesOf(notes, hitZoneY, dy)| == |notes| - |Filter(notes, (n: Note) => n.hit)|
    decreases |notes|
  {
    if |notes| > 0 {
      var n, tail := notes[0], notes[1..];
      FrameAccountsForEveryNote(tail, hitZoneY, dy);
      var isHit := (x: Note) => x.hit;
      assert |Filter(notes, isHit)| == (if n.hit then 1 else 0) + |Filter(tail, isHit)|;
      assert |Survivors(notes, hitZoneY, dy)|
        == (if n.hit || PassedBy(n, hitZoneY, dy) then 0 else 1) + |Survivors(tail, hitZoneY, dy)|;
      assert |MissesOf(notes, hitZoneY, dy)| == (if PassedBy(n, hitZoneY, dy) then 1 else 0) + |MissesOf(tail, hitZoneY, dy)|;
    }
  }

  /** A run of misses leaves the score alone, counts each miss, ends any combo and costs 3 health each, down to 0. */
  lemma {:induction false} MissesOnly(st: RhythmState, js: seq<Judgement>)
    requires forall j :: j in js ==> j.timing == Miss
    ensures var r := PlayAll(st, js);
      && r.score == st.score
      && r.hitCounts == HitCounts(st.hitCounts.perfect, st.hitCounts.good, st.hitCounts.miss + |js|)
      && (|js| > 0 ==> r.combo == 0)
      && (|js| == 0 ==> r == st)
      && r.flashIntensity == st.flashIntensity
      && (0 <= st.health <= MaxHealth ==> r.health == Max(0, st.health - 3 * |js|))
    decreases |js|
  {
    if |js| > 0 {
      var next := HitNote(st, js[0].noteId, Miss);
      assert Count(next.hitCounts, Miss) == Count(st.hitCounts, Miss) + 1;
      assert Count(next.hitCounts, Perfect) == Count(st.hitCounts, Perfect);
      assert Count(next.hitCounts, Good) == Count(st.hitCounts, Good);
      assert js[1..] == [] || js[1..][0] in js;
      assert forall j :: j in js[1..] ==> j in js;
      MissesOnly(next, js[1..]);
    }
    if 0 <= st.health <= MaxHealth {
      MissesCostHealth(st, js);
    }
  }

  /** Each miss costs 3 health, and health stops at 0. */
  lemma {:induction false} MissesCostHealth(st: RhythmState, js: seq<Judgement>)
    requires forall j :: j in js ==> j.timing == Miss
    requires 0 <= st.health <= MaxHealth
    ensures PlayAll(st, js).health == Max(0, st.health - 3 * |js|)
    decreases |js|
  {
    if |js| > 0 {
      assert js[0] in js;
      var next := HitNote(st, js[0].noteId, Miss);
      assert next.health == Max(0, st.health - 3);
      assert forall j :: j in js[1..] ==> j in js;
      MissesCostHealth(next, js[1..]);
      assert PlayAll(st, js) == PlayAll(next, js[1..]);
      var n := |js| - 1;
      assert Max(0, Max(0, st.health - 3) - 3 * n) == Max(0, st.health - 3 * (n + 1));
    }
  }

  /**
   * `updateNotes(deltaTime)` on the scoring store and the game store: hit notes are
   * dropped, the others fall by `NoteSpeed * deltaTime / 1000`, each that falls past
   * the miss line is judged a miss and dropped, and the survivors replace the list.
   * The end-of-game check reads the health of the snapshot taken before this frame's
   * misses were judged.
   */
  function UpdateNotes(st: RhythmState, g: Game.GameState, hitZoneY: real, deltaTime: real): (r: (RhythmState, Game.GameState))
    ensures r.0.notes == Survivors(st.notes, hitZoneY, NoteSpeed * (deltaTime / 1000.0))
    ensures r.1 == if st.health <= 0 then Game.End(g) else g
  {
    var dy := NoteSpeed * (deltaTime / 1000.0);
    var survivors := Survivors(st.notes, hitZoneY, dy);
    var judged := PlayAll(st, MissesOf(st.notes, hitZoneY, dy));
    var r := (ReplaceNotes(judged, survivors), if st.health <= 0 then Game.End(g) else g);
    assert r.0.notes == survivors;
    r
  }

  /**
   * After a frame no hit note and no note below the miss line remains, each unhit
   * note that passed it is counted as one miss, the score is unchanged, a miss
   * ends the combo, and each miss costs 3 health, down to 0: the health the next
   * frame's end-of-game check reads.
   */
  lemma UpdateNotesEffects(st: RhythmState, g: Game.GameState, hitZoneY: real, deltaTime: real)
    ensures var (r, _) := UpdateNotes(st, g, hitZoneY, deltaTime);
      var missed := MissesOf(st.notes, hitZoneY, NoteSpeed * (deltaTime / 1000.0));
      && (forall n :: n in r.notes ==> !n.hit && n.y <= hitZoneY + MissMargin)
      && r.score == st.score
      && r.hitCounts == HitCounts(st.hitCounts.perfect, st.hitCounts.good, st.hitCounts.miss + |missed|)
      && (|missed| > 0 ==> r.combo == 0)
      && (0 <= st.health <= MaxHealth ==> r.health == Max(0, st.health - 3 * |missed|))
  {
    var missed := MissesOf(st.notes, hitZoneY, NoteSpeed * (deltaTime / 1000.0));
    UpdateNotesJudges(st, g, hitZoneY, deltaTime);
    MissesOnly(st, missed);
  }

  /** The frame's scoring store is the store after judging its misses, with the survivors as notes. */
  lemma UpdateNotesJudges(st: RhythmState, g: Game.GameState, hitZoneY: real, deltaTime: real)
    ensures var dy := NoteSpeed * (deltaTime / 1000.0);
      UpdateNotes(st, g, hitZoneY, deltaTime).0 == PlayAll(st, MissesOf(st.notes, hitZoneY, dy)).(notes := Survivors(st.notes, hitZoneY, dy))
  {
  }

  /** A frame keeps the scoring store's invariant. */
  lemma UpdateNotesKeepsValid(st: RhythmState, g: Game.GameState, hitZoneY: real, deltaTime: real)
    requires Valid(st)
    ensures Valid(UpdateNotes(st, g, hitZoneY, deltaTime).0)
  {
    PlayAllKeepsInvariant(st, MissesOf(st.notes, hitZoneY, NoteSpeed * (deltaTime / 1000.0)));
  }

  // ---------------------------------------------------------------------------
  // Spawning notes
  // ---------------------------------------------------------------------------

  const InitialInterval: real := 1000.0
  const MinInterval: real := 400.0
  const IntervalStep: real := 0.5

  /** New notes appear above the top edge. */
  const SpawnY: real := -50.0

  /** `start()` sets the first note due at 2000 on the run clock. */
  const FirstNoteTime: real := 2000.0

  /** The interval shrinks by half a millisecond per note while it is above 400 ms. */
  function NextInterval(interval: real): (r: real)
    ensures interval > MinInterval ==> r == interval - IntervalStep
    ensures interval <= MinInterval ==> r == interval
  {
    if interval > MinInterval then interval - IntervalStep else interval
  }

  function IntervalAfter(n: nat): real
    decreases n
  {
    if n == 0 then InitialInterval else NextInterval(IntervalAfter(n - 1))
  }

  /** After n notes the interval is 1000 - n/2 milliseconds, until it settles at 400. */
  lemma {:induction false} IntervalAfterClosedForm(n: nat)
    ensures IntervalAfter(n) == MaxReal(MinInterval, InitialInterval - IntervalStep * n as real)
    ensures IntervalAfter(n) >= MinInterval
    decreases n
  {
    if n > 0 {
      IntervalAfterClosedForm(n - 1);
    }
  }

  /**
   * The spawner's fields of the engine.  `running` stands for a scheduled animation
   * frame (`animationId` set); `startTime` is 0 until the first frame of a run stamps
   * it with that frame's `requestAnimationFrame` timestamp.
   */
  datatype Spawner = Spawner(running: bool, startTime: real, nextNoteTime: real, noteInterval: real)

  /**
   * `start()`: does nothing while a frame is scheduled; otherwise clears the run
   * start, makes the first note due at 2000 and schedules a frame.  The interval
   * carries over from earlier runs.
   */
  function StartSpawner(s: Spawner): (r: Spawner)
    ensures s.running ==> r == s
    ensures !s.running ==>
      r.running && r.startTime == 0.0 && r.nextNoteTime == FirstNoteTime && r.noteInterval == s.noteInterval
  {
    if s.running then s
    else Spawner(true, 0.0, FirstNoteTime, s.noteInterval)
  }

  /** `stop()`: cancels the scheduled frame; the clocks and schedule stay as they are. */
  function StopSpawner(s: Spawner): (r: Spawner)
    ensures !r.running && r.(running := s.running) == s
  {
    s.(running := false)
  }

  /** The head of `gameLoop(timestamp)`: a run start of 0 is falsy and is replaced by the frame timestamp. */
  function StampStart(s: Spawner, timestamp: real): (r: Spawner)
    ensures s.startTime == 0.0 ==> r.startTime == timestamp
    ensures s.startTime != 0.0 ==> r == s
    ensures r.(startTime := s.startTime) == s
  {
    if s.startTime == 0.0 then s.(startTime := timestamp) else s
  }

  /** `Math.floor(Math.random() * 4)` */
  function LaneFromRoll(roll: real): (lane: int)
    requires 0.0 <= roll < 1.0
    ensures 0 <= lane < LaneCount
  {
    (roll * 4.0).Floor
  }

  /**
   * `generateNote()` when `Date.now()` reads `now`: the elapsed time is `now` minus
   * the run start.  When a note is due, one is added in a random lane just above the
   * screen, the next one is scheduled an interval later give or take 150 ms, and the
   * interval shrinks.  `laneRoll` and `jitterRoll` are the two `Math.random()`
   * results, `id` the generated note id.
   */
  function GenerateNote(s: Spawner, st: RhythmState, now: real, laneRoll: real, jitterRoll: real, id: string): (r: (Spawner, RhythmState))
    requires 0.0 <= laneRoll < 1.0 && 0.0 <= jitterRoll < 1.0
    ensures now - s.startTime < s.nextNoteTime ==> r == (s, st)
    ensures now - s.startTime >= s.nextNoteTime ==>
      var currentTime := now - s.startTime;
      && |r.1.notes| == |st.notes| + 1
      && r.1.notes[..|st.notes|] == st.notes
      && (var n := r.1.notes[|st.notes|];
          0 <= n.lane < LaneCount && n.y == SpawnY && !n.hit && n.time == currentTime && n.id == id)
      && currentTime + s.noteInterval - 150.0 <= r.0.nextNoteTime < currentTime + s.noteInterval + 150.0
      && r.0.noteInterval == NextInterval(s.noteInterval)
      && r.0.running == s.running && r.0.startTime == s.startTime
      && r.1 == st.(notes := r.1.notes)
  {
    var currentTime := now - s.startTime;
    if currentTime >= s.nextNoteTime then
      var note := Note(id, LaneFromRoll(laneRoll), SpawnY, currentTime, false, false, None, None, false);
      var next := currentTime + s.noteInterval + (jitterRoll - 0.5) * 300.0;
      (s.(nextNoteTime := next, noteInterval := NextInterval(s.noteInterval)), AddNote(st, note))
    else (s, st)
  }

  /**
   * The first frame of a fresh run, stamped with frame timestamp `timestamp`, makes
   * the first note due exactly when the wall clock `now` is at least 2000 past that
   * timestamp.  The frame timestamp counts from page load while `Date.now()` counts
   * from 1970, so in a browser the first note appears on the very first frame rather
   * than two seconds in; only if the two clocks agreed would the two-second delay hold.
   */
  lemma FirstFrameSpawnsIffClocksApart(s: Spawner, st: RhythmState, timestamp: real, now: real,
                                       laneRoll: real, jitterRoll: real, id: string)
    requires !s.running
    requires 0.0 <= laneRoll < 1.0 && 0.0 <= jitterRoll < 1.0
    ensures var s1 := StampStart(StartSpawner(s), timestamp);
      |GenerateNote(s1, st, now, laneRoll, jitterRoll, id).1.notes| == |st.notes| + 1 <==> now - timestamp >= FirstNoteTime
  {
  }
}
