/**
 * The scoring store of a play session (client/src/lib/stores/useRhythm.tsx):
 * every judgement updates score, combo, best combo, health, the per-judgement
 * counters and the accuracy percentage.  The store's `set` calls become pure
 * transitions from one `RhythmState` to the next; `Date.now()` becomes the
 * parameter `now`.
 */
module Rhythm {
  import opened Common

  datatype Timing = Perfect | Good | Miss

  /** A falling note.  Optional fields of the source that may be `undefined` are `Option`s. */
  datatype Note = Note(
    id: string,
    lane: int,
    y: real,
    time: real,
    hit: bool,
    isHold: bool,
    holdDuration: Option<int>,
    holdStartTime: Option<int>,
    holdActive: bool)

  datatype HitCounts = HitCounts(perfect: nat, good: nat, miss: nat)

  datatype RhythmState = RhythmState(
    score: int,
    combo: nat,
    maxCombo: nat,
    accuracy: real,
    health: int,
    notes: seq<Note>,
    hitCounts: HitCounts,
    flashIntensity: real)

  const MaxHealth: int := 100

  /** The store's initial value, which `resetGame` restores. */
  const Initial: RhythmState :=
    RhythmState(0, 0, 0, 100.0, MaxHealth, [], HitCounts(0, 0, 0), 0.0)

  function Count(h: HitCounts, t: Timing): nat {
    match t
    case Perfect => h.perfect
    case Good => h.good
    case Miss => h.miss
  }

  function Total(h: HitCounts): nat { h.perfect + h.good + h.miss }

  /** `{ ...hitCounts, [timing]: hitCounts[timing] + 1 }` */
  function Bump(h: HitCounts, t: Timing): (r: HitCounts)
    ensures forall u :: Count(r, u) == Count(h, u) + (if u == t then 1 else 0)
    ensures Total(r) == Total(h) + 1
  {
    match t
    case Perfect => h.(perfect := h.perfect + 1)
    case Good => h.(good := h.good + 1)
    case Miss => h.(miss := h.miss + 1)
  }

  /** Successful hits as a percentage of all judgements; 100 before the first judgement. */
  function Accuracy(h: HitCounts): (a: real)
    ensures 0.0 <= a <= 100.0
    ensures Total(h) == 0 ==> a == 100.0
    ensures Total(h) > 0 ==> a * Total(h) as real == (h.perfect + h.good) as real * 100.0
    ensures a == 100.0 <==> h.miss == 0
  {
    var total := Total(h);
    var successful := h.perfect + h.good;
    if total > 0 then
      var a := successful as real / total as real * 100.0;
      assert a * total as real == successful as real * 100.0;
      assert a <= 100.0 by {
        assert a * total as real <= 100.0 * total as real;
        CancelPositive(a, 100.0, total as real);
      }
      assert a == 100.0 ==> h.miss == 0 by {
        if a == 100.0 {
          assert successful as real * 100.0 == total as real * 100.0;
        }
      }
      a
    else 100.0
  }

  lemma CancelPositive(a: real, b: real, t: real)
    requires t > 0.0 && a * t <= b * t
    ensures a <= b
  {
  }

  lemma ScaleBetween(lo: real, x: real, hi: real, c: real)
    requires lo <= x <= hi && c >= 0.0
    ensures lo * c <= x * c
    ensures x * c <= hi * c
  {
    assert (x - lo) * c >= 0.0;
    assert (hi - x) * c >= 0.0;
  }

  /** `Math.max(0, Math.min(100, health))` */
  function ClampHealth(h: int): (r: int)
    ensures 0 <= r <= MaxHealth
    ensures 0 <= h <= MaxHealth ==> r == h
    ensures h < 0 ==> r == 0
    ensures h > MaxHealth ==> r == MaxHealth
  {
    Max(0, Min(MaxHealth, h))
  }

  /** Marks every note carrying `noteId` as hit. */
  function MarkHit(notes: seq<Note>, noteId: string): (r: seq<Note>)
    ensures |r| == |notes|
    ensures forall i :: 0 <= i < |notes| ==>
      r[i] == if notes[i].id == noteId then notes[i].(hit := true) else notes[i]
  {
    seq(|notes|, i requires 0 <= i < |notes| => if notes[i].id == noteId then notes[i].(hit := true) else notes[i])
  }

  /**
   * The bookkeeping shared by `hitNote` and `endHoldNote` once the score, combo
   * and health changes are known: combo floored at 0, best combo kept, health
   * clamped, the judged counter bumped and accuracy recomputed.
   */
  function Settle(st: RhythmState, notes: seq<Note>, timing: Timing,
                  scoreIncrease: int, comboIncrease: int, healthChange: int): (r: RhythmState)
    ensures r.notes == notes && r.flashIntensity == st.flashIntensity
    ensures r.score == st.score + scoreIncrease
    ensures r.combo == Max(0, st.combo + comboIncrease)
    ensures r.maxCombo >= st.maxCombo && r.maxCombo >= r.combo
    ensures r.maxCombo == st.maxCombo || r.maxCombo == r.combo
    ensures 0 <= r.health <= MaxHealth
    ensures r.health == ClampHealth(st.health + healthChange)
    ensures r.hitCounts == Bump(st.hitCounts, timing)
    ensures r.accuracy == Accuracy(r.hitCounts)
  {
    var newCombo := Max(0, st.combo + comboIncrease);
    var newCounts := Bump(st.hitCounts, timing);
    RhythmState(
      st.score + scoreIncrease,
      newCombo,
      Max(st.maxCombo, newCombo),
      Accuracy(newCounts),
      ClampHealth(st.health + healthChange),
      notes,
      newCounts,
      st.flashIntensity)
  }

  /** Points a tap judgement earns at the current combo. */
  function TapScore(timing: Timing, combo: nat): int {
    match timing
    case Perfect => 100 * (combo + 1)
    case Good => 50 * (combo + 1)
    case Miss => 0
  }

  /** Health a tap judgement restores (or costs). */
  function TapHealth(timing: Timing): int {
    match timing
    case Perfect => 2
    case Good => 1
    case Miss => -3
  }

  /** `hitNote(noteId, timing)` */
  function HitNote(st: RhythmState, noteId: string, timing: Timing): (r: RhythmState)
    ensures 0 <= r.health <= MaxHealth
    ensures timing == Miss ==> r.combo == 0 && r.score == st.score && r.health == ClampHealth(st.health - 3)
    ensures timing == Perfect ==>
      r.combo == st.combo + 1 && r.score == st.score + 100 * (st.combo + 1) && r.health == ClampHealth(st.health + 2)
    ensures timing == Good ==>
      r.combo == st.combo + 1 && r.score == st.score + 50 * (st.combo + 1) && r.health == ClampHealth(st.health + 1)
    ensures r.score >= st.score
    ensures r.maxCombo == Max(st.maxCombo, r.combo)
    ensures Count(r.hitCounts, timing) == Count(st.hitCounts, timing) + 1
    ensures forall u :: u != timing ==> Count(r.hitCounts, u) == Count(st.hitCounts, u)
    ensures r.accuracy == Accuracy(r.hitCounts) && 0.0 <= r.accuracy <= 100.0
    ensures |r.notes| == |st.notes|
    ensures forall i :: 0 <= i < |st.notes| && st.notes[i].id != noteId ==> r.notes[i] == st.notes[i]
    ensures forall i :: 0 <= i < |st.notes| && st.notes[i].id == noteId ==> r.notes[i] == st.notes[i].(hit := true)
    ensures r.flashIntensity == st.flashIntensity
  {
    var comboIncrease := if timing == Miss then -(st.combo as int) else 1;
    Settle(st, MarkHit(st.notes, noteId), timing, TapScore(timing, st.combo), comboIncrease, TapHealth(timing))
  }

  /** The first note carrying `noteId`: `notes.find(n => n.id === noteId)`. */
  function Find(notes: seq<Note>, noteId: string): (r: Option<nat>)
    ensures r.Some? ==> r.value < |notes| && notes[r.value].id == noteId
    ensures r.Some? ==> forall j :: 0 <= j < r.value ==> notes[j].id != noteId
    ensures r.None? ==> forall j :: 0 <= j < |notes| ==> notes[j].id != noteId
  {
    if |notes| == 0 then None
    else if notes[0].id == noteId then Some(0)
    else match Find(notes[1..], noteId)
      case None => None
      case Some(k) => Some(k + 1)
  }

  /** `x || d` on a number: `undefined` and `0` are both falsy. */
  function OrDefault(x: Option<int>, d: int): (r: int)
    ensures r != 0 || d == 0
    ensures x.Some? && x.value != 0 ==> r == x.value
  {
    if x.Some? && x.value != 0 then x.value else d
  }

  /** The share of the expected hold time the player kept the key down, capped at 1. */
  function HoldRatio(n: Note, now: int): (r: real)
    ensures r <= 1.0
    ensures var expected := OrDefault(n.holdDuration, 1000);
      var held := now - OrDefault(n.holdStartTime, 0);
      expected > 0 ==> (r == 1.0 <==> held >= expected)
    ensures var expected := OrDefault(n.holdDuration, 1000);
      var held := now - OrDefault(n.holdStartTime, 0);
      expected > 0 && held < expected ==> r == held as real / expected as real
  {
    var held := now - OrDefault(n.holdStartTime, 0);
    var expected := OrDefault(n.holdDuration, 1000);
    MinReal(held as real / expected as real, 1.0)
  }

  /** Whether a released hold note keeps the combo: the named judgement AND a long enough hold. */
  predicate HoldSucceeds(timing: Timing, ratio: real) {
    (timing == Perfect && ratio > 0.8) || (timing == Good && ratio > 0.5)
  }

  /** Points a successful hold earns: its share of 200 (perfect) or 100 (good) per combo step, floored. */
  function HoldScore(timing: Timing, ratio: real, combo: nat): (p: int)
    requires HoldSucceeds(timing, ratio) && ratio <= 1.0
    ensures timing == Perfect ==> 160 * (combo + 1) <= p <= 200 * (combo + 1)
    ensures timing == Good ==> 50 * (combo + 1) <= p <= 100 * (combo + 1)
  {
    var n := combo + 1;
    if timing == Perfect then
      HoldFloor(200.0, ratio, n, 160, 200);
      (200.0 * ratio * n as real).Floor
    else
      HoldFloor(100.0, ratio, n, 50, 100);
      (100.0 * ratio * n as real).Floor
  }

  /** A longer hold never earns less. */
  lemma HoldScoreMonotone(timing: Timing, r1: real, r2: real, combo: nat)
    requires HoldSucceeds(timing, r1) && r1 <= r2 <= 1.0
    ensures HoldSucceeds(timing, r2)
    ensures HoldScore(timing, r1, combo) <= HoldScore(timing, r2, combo)
  {
    var n := combo + 1;
    if timing == Perfect {
      ScaleBetween(200.0 * r1, 200.0 * r1, 200.0 * r2, n as real);
      FloorLe(200.0 * r1 * n as real, 200.0 * r2 * n as real);
    } else {
      ScaleBetween(100.0 * r1, 100.0 * r1, 100.0 * r2, n as real);
      FloorLe(100.0 * r1 * n as real, 100.0 * r2 * n as real);
    }
  }

  /** A hold kept for the whole expected time earns the full 200 (perfect) or 100 (good) per combo step. */
  lemma HoldScoreFull(timing: Timing, combo: nat)
    requires timing != Miss
    ensures HoldScore(timing, 1.0, combo) == (if timing == Perfect then 200 else 100) * (combo + 1)
  {
  }

  lemma FloorLe(x: real, y: real)
    requires x <= y
    ensures x.Floor <= y.Floor
  {
  }

  /** A per-step share between lo and hi, taken n times and floored, lies between lo * n and hi * n. */
  lemma HoldFloor(k: real, ratio: real, n: nat, lo: int, hi: int)
    requires lo as real <= k * ratio <= hi as real
    ensures lo * n <= (k * ratio * n as real).Floor <= hi * n
  {
    ScaleBetween(lo as real, k * ratio, hi as real, n as real);
    assert (lo * n) as real == lo as real * n as real;
    assert (hi * n) as real == hi as real * n as real;
  }

  /** `endHoldNote(noteId, timing)` released at time `now`. */
  function EndHoldNote(st: RhythmState, noteId: string, timing: Timing, now: int): (r: RhythmState)
    ensures Find(st.notes, noteId).None? ==> r == st
    ensures Find(st.notes, noteId).Some? ==>
      var ratio := HoldRatio(st.notes[Find(st.notes, noteId).value], now);
      && (HoldSucceeds(timing, ratio) ==>
            r.combo == st.combo + 1 && r.score == st.score + HoldScore(timing, ratio, st.combo))
      && (!HoldSucceeds(timing, ratio) ==> r.combo == 0 && r.score == st.score && r.health == ClampHealth(st.health - 5))
      && (timing == Perfect && ratio > 0.8 ==>
            160 * (st.combo + 1) <= r.score - st.score <= 200 * (st.combo + 1) && r.health == ClampHealth(st.health + 3))
      && (timing == Good && ratio > 0.5 ==>
            50 * (st.combo + 1) <= r.score - st.score <= 100 * (st.combo + 1) && r.health == ClampHealth(st.health + 2))
      && Count(r.hitCounts, timing) == Count(st.hitCounts, timing) + 1
      && (forall u :: u != timing ==> Count(r.hitCounts, u) == Count(st.hitCounts, u))
      && r.accuracy == Accuracy(r.hitCounts)
      && r.maxCombo == Max(st.maxCombo, r.combo)
      && r.notes == MarkHit(st.notes, noteId)
      && r.flashIntensity == st.flashIntensity
    ensures r.score >= st.score
    ensures 0 <= st.health <= MaxHealth ==> 0 <= r.health <= MaxHealth
    ensures r.maxCombo >= st.maxCombo
  {
    match Find(st.notes, noteId)
    case None => st
    case Some(k) =>
      var ratio := HoldRatio(st.notes[k], now);
      var notes := MarkHit(st.notes, noteId);
      if HoldSucceeds(timing, ratio) then
        Settle(st, notes, timing, HoldScore(timing, ratio, st.combo), 1, if timing == Perfect then 3 else 2)
      else
        Settle(st, notes, timing, 0, -(st.combo as int), -5)
  }

  /** `startHoldNote(noteId)` at time `now`. */
  function StartHoldNote(st: RhythmState, noteId: string, now: int): (r: RhythmState)
    ensures r == st.(notes := r.notes)
    ensures |r.notes| == |st.notes|
    ensures forall i :: 0 <= i < |st.notes| ==>
      r.notes[i] == if st.notes[i].id == noteId
                    then st.notes[i].(holdActive := true, holdStartTime := Some(now))
                    else st.notes[i]
  {
    var notes := st.notes;
    st.(notes := seq(|notes|, i requires 0 <= i < |notes| =>
      if notes[i].id == noteId then notes[i].(holdActive := true, holdStartTime := Some(now)) else notes[i]))
  }

  /** `addNote(note)` */
  function AddNote(st: RhythmState, note: Note): (r: RhythmState)
    ensures r.notes == st.notes + [note]
    ensures r == st.(notes := r.notes)
  {
    st.(notes := st.notes + [note])
  }

  /** `updateNotes(notes)` */
  function ReplaceNotes(st: RhythmState, notes: seq<Note>): (r: RhythmState)
    ensures r.notes == notes && r == st.(notes := notes)
  {
    st.(notes := notes)
  }

  /** `resetGame()`: everything back to the initial value. */
  function ResetGame(st: RhythmState): (r: RhythmState)
    ensures r == Initial
    ensures Valid(r) && r.flashIntensity == 0.0
  {
    Initial
  }

  /** `triggerFlash(intensity = 0.8)` */
  function TriggerFlash(st: RhythmState, intensity: Option<real>): (r: RhythmState)
    ensures r == st.(flashIntensity := r.flashIntensity)
    ensures r.flashIntensity == if intensity.Some? then intensity.value else 0.8
  {
    st.(flashIntensity := if intensity.Some? then intensity.value else 0.8)
  }

  const FlashFade: real := 0.04

  /** `updateFlash()`: one frame of fading. */
  function UpdateFlash(st: RhythmState): (r: RhythmState)
    ensures r == st.(flashIntensity := r.flashIntensity)
    ensures r.flashIntensity >= 0.0
    ensures r.flashIntensity <= st.flashIntensity || st.flashIntensity < 0.0
    ensures st.flashIntensity > FlashFade ==> r.flashIntensity == st.flashIntensity - FlashFade
    ensures st.flashIntensity <= FlashFade ==> r.flashIntensity == 0.0
  {
    st.(flashIntensity := MaxReal(0.0, st.flashIntensity - FlashFade))
  }

  /** `n` frames of fading. */
  function Fade(st: RhythmState, n: nat): RhythmState
    decreases n
  {
    if n == 0 then st else Fade(UpdateFlash(st), n - 1)
  }

  /** A flash no brighter than `n` fading steps is gone after `n` frames: 0.8 fades in 20 frames. */
  lemma {:induction false} FlashFadesOut(st: RhythmState, n: nat)
    requires 0.0 <= st.flashIntensity <= FlashFade * n as real
    ensures Fade(st, n).flashIntensity == 0.0
    decreases n
  {
    if n > 0 {
      var next := UpdateFlash(st);
      assert next.flashIntensity <= FlashFade * (n - 1) as real;
      FlashFadesOut(next, n - 1);
    }
  }

  // ---------------------------------------------------------------------------
  // The session invariant
  // ---------------------------------------------------------------------------

  /**
   * What holds of every state reachable from `Initial` through the store's actions:
   * health within bounds, the best combo at least the current one and at most the
   * number of successful hits, and accuracy in step with the counters.
   */
  ghost predicate Valid(st: RhythmState) {
    && 0 <= st.health <= MaxHealth
    && st.score >= 0
    && st.combo <= st.maxCombo
    && st.maxCombo <= st.hitCounts.perfect + st.hitCounts.good
    && st.accuracy == Accuracy(st.hitCounts)
  }

  lemma HitNotePreservesValid(st: RhythmState, noteId: string, timing: Timing)
    requires Valid(st)
    ensures Valid(HitNote(st, noteId, timing))
  {
    var r := HitNote(st, noteId, timing);
    assert Count(r.hitCounts, timing) == Count(st.hitCounts, timing) + 1;
    assert forall u :: u != timing ==> Count(r.hitCounts, u) == Count(st.hitCounts, u);
    assert Count(r.hitCounts, Perfect) == r.hitCounts.perfect && Count(r.hitCounts, Good) == r.hitCounts.good;
  }

  lemma EndHoldNotePreservesValid(st: RhythmState, noteId: string, timing: Timing, now: int)
    requires Valid(st)
    ensures Valid(EndHoldNote(st, noteId, timing, now))
  {
    var r := EndHoldNote(st, noteId, timing, now);
    if Find(st.notes, noteId).Some? {
      var ratio := HoldRatio(st.notes[Find(st.notes, noteId).value], now);
      assert Count(r.hitCounts, timing) == Count(st.hitCounts, timing) + 1;
      assert forall u :: u != timing ==> Count(r.hitCounts, u) == Count(st.hitCounts, u);
      assert Count(r.hitCounts, Perfect) == r.hitCounts.perfect && Count(r.hitCounts, Good) == r.hitCounts.good;
      assert HoldSucceeds(timing, ratio) ==> timing != Miss;
    }
  }

  /** A sequence of tap judgements, each on some note id. */
  datatype Judgement = Judgement(noteId: string, timing: Timing)

  function PlayAll(st: RhythmState, js: seq<Judgement>): RhythmState
    decreases |js|
  {
    if |js| == 0 then st else PlayAll(HitNote(st, js[0].noteId, js[0].timing), js[1..])
  }

  /**
   * Over a whole session of tap judgements the invariant holds, the score never
   * falls and the counters add up to the number of judgements.
   */
  lemma {:induction false} PlayAllKeepsInvariant(st: RhythmState, js: seq<Judgement>)
    requires Valid(st)
    ensures Valid(PlayAll(st, js))
    ensures PlayAll(st, js).score >= st.score
    ensures PlayAll(st, js).maxCombo >= st.maxCombo
    ensures Total(PlayAll(st, js).hitCounts) == Total(st.hitCounts) + |js|
    decreases |js|
  {
    if |js| > 0 {
      var next := HitNote(st, js[0].noteId, js[0].timing);
      HitNotePreservesValid(st, js[0].noteId, js[0].timing);
      PlayAllKeepsInvariant(next, js[1..]);
    }
  }

  lemma AddNotePreservesValid(st: RhythmState, note: Note)
    requires Valid(st)
    ensures Valid(AddNote(st, note))
  {
  }
}
