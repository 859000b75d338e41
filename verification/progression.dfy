/**
 * Player progression rules shared by client and server (shared/schema.ts):
 * experience earned from one play, the level an experience total reaches,
 * the experience a level ends at, and the level that unlocks each character.
 *
 * Experience and levels are integers.  `Math.floor(Math.sqrt(e / 100))` is
 * modelled as the integer square root of `e div 100`, which it equals for
 * every integer `e >= 0`; the decimal multipliers are exact `real`s.
 */
module Progression {
  import opened Common

  /** Each character and the level that unlocks it, in declaration order. */
  const CharacterUnlockLevels: seq<(string, nat)> :=
    [("ivy", 1), ("scal", 5), ("lightren", 10), ("winter", 20)]

  /** The five difficulty names the game uses. */
  const Difficulties: seq<string> := ["Easy", "Normal", "Hard", "Expert", "Master"]

  // ---------------------------------------------------------------------------
  // Experience
  // ---------------------------------------------------------------------------

  /** `difficultyMultipliers[difficulty] || 1.0`: an unknown name counts as Easy. */
  function DifficultyMultiplier(difficulty: string): (m: real)
    ensures 1.0 <= m <= 2.5
    ensures difficulty !in Difficulties ==> m == 1.0
  {
    if difficulty == "Easy" then 1.0
    else if difficulty == "Normal" then 1.2
    else if difficulty == "Hard" then 1.5
    else if difficulty == "Expert" then 2.0
    else if difficulty == "Master" then 2.5
    else 1.0
  }

  /**
   * The names every plain object inherits from `Object.prototype`.  Looked up in the
   * multiplier table, each yields a function or an object: truthy, so the `|| 1.0`
   * default is skipped, and multiplying by it gives `NaN`.
   */
  const InheritedKeys: set<string> := {
    "constructor", "__proto__", "toString", "toLocaleString", "valueOf", "hasOwnProperty",
    "isPrototypeOf", "propertyIsEnumerable", "__defineGetter__", "__defineSetter__",
    "__lookupGetter__", "__lookupSetter__"}

  /** What the multiplier-table lookup yields as written: a number, or a value that makes the product `NaN`. */
  datatype Factor = Number(value: real) | NotANumber

  /**
   * `difficultyMultipliers[difficulty] || 1.0` as written: an own key gives its
   * multiplier, an inherited key gives `NaN`, any other name falls back to 1.0.
   */
  function MultiplierAsWritten(difficulty: string): (f: Factor)
    ensures f.NotANumber? <==> difficulty in InheritedKeys
    ensures f.Number? ==> f.value == DifficultyMultiplier(difficulty)
  {
    if difficulty in Difficulties then Number(DifficultyMultiplier(difficulty))
    else if difficulty in InheritedKeys then NotANumber
    else Number(1.0)
  }

  /** `calculateExperience` as written: `None` is the `NaN` an inherited difficulty name produces. */
  function ExperienceAsWritten(score: int, accuracy: real, difficulty: string, passed: bool): (e: Option<int>)
    ensures e.None? <==> difficulty in InheritedKeys
    ensures e.Some? ==> e.value == CalculateExperience(score, accuracy, difficulty, passed)
  {
    match MultiplierAsWritten(difficulty)
    case NotANumber => None
    case Number(m) => Some(Award(BaseExperience(score), m, AccuracyBonus(accuracy), PassBonus(passed)))
  }

  /**
   * The difficulty "constructor" earns `NaN` as written, where the unknown-name rule
   * the table's default evidently intends gives the Easy award: 7 for 5000 points at 90%, passed.
   */
  lemma ConstructorDifficultyIsNaN()
    ensures ExperienceAsWritten(5000, 90.0, "constructor", true).None?
    ensures CalculateExperience(5000, 90.0, "constructor", true) == 7
  {
    assert "constructor" !in Difficulties;
    assert Award(5, 1.0, 1.3, 1.2) == 7;
  }

  /** The accuracy bonus tiers: 95% and up, 85% and up, 70% and up. */
  function AccuracyBonus(accuracy: real): (b: real)
    ensures 1.0 <= b <= 1.5
  {
    if accuracy >= 95.0 then 1.5
    else if accuracy >= 85.0 then 1.3
    else if accuracy >= 70.0 then 1.1
    else 1.0
  }

  function PassBonus(passed: bool): (b: real)
    ensures 1.0 <= b <= 1.2
  {
    if passed then 1.2 else 1.0
  }

  /** One experience point per full 1000 points of score (floor division, as `Math.floor`). */
  function BaseExperience(score: int): int {
    score / 1000
  }

  /** A base amount scaled by the difficulty, accuracy and pass factors, then floored. */
  function Award(base: int, m: real, a: real, p: real): int {
    (base as real * m * a * p).Floor
  }

  /** `calculateExperience(score, accuracy, difficulty, passed)` */
  function CalculateExperience(score: int, accuracy: real, difficulty: string, passed: bool): (e: int)
    ensures 0 <= score < 1000 ==> e == 0
    ensures score >= 0 ==> score / 1000 <= e
    ensures score >= 0 ==> 2 * e <= 9 * (score / 1000)
  {
    var base := BaseExperience(score);
    var m, a, p := DifficultyMultiplier(difficulty), AccuracyBonus(accuracy), PassBonus(passed);
    if score >= 0 then
      AwardBounds(base, m, a, p);
      Award(base, m, a, p)
    else
      Award(base, m, a, p)
  }

  /** An award lies between its base and 4.5 times it, once floored: the extreme factors bound every other choice. */
  lemma AwardBounds(base: int, m: real, a: real, p: real)
    requires base >= 0 && 1.0 <= m <= 2.5 && 1.0 <= a <= 1.5 && 1.0 <= p <= 1.2
    ensures base <= Award(base, m, a, p)
    ensures 2 * Award(base, m, a, p) <= 9 * base
  {
    AwardMonotone(base, 1.0, m, 1.0, a, 1.0, p);
    AwardMonotone(base, m, 2.5, a, 1.5, p, 1.2);
    assert Award(base, 1.0, 1.0, 1.0) == base;
    assert base as real * 2.5 * 1.5 * 1.2 == 4.5 * base as real;
  }

  /** x * f <= x * g for x >= 0 and f <= g. */
  lemma ScaleUp(x: real, f: real, g: real)
    requires x >= 0.0 && f <= g
    ensures x * f <= x * g
  {
    assert x * (g - f) >= 0.0;
  }

  /** f * x <= g * x for x >= 0 and f <= g. */
  lemma ScaleUpRight(f: real, g: real, x: real)
    requires x >= 0.0 && f <= g
    ensures f * x <= g * x
  {
    assert (g - f) * x >= 0.0;
  }

  lemma FloorMonotone(x: real, y: real)
    requires x <= y
    ensures x.Floor <= y.Floor
  {
  }

  /** Larger factors never award less. */
  lemma AwardMonotone(base: int, m1: real, m2: real, a1: real, a2: real, p1: real, p2: real)
    requires base >= 0
    requires 1.0 <= m1 <= m2 && 1.0 <= a1 <= a2 && 1.0 <= p1 <= p2
    ensures Award(base, m1, a1, p1) <= Award(base, m2, a2, p2)
  {
    var b := base as real;
    var x1, y1 := b * m1, b * m2;
    ScaleUp(b, m1, m2);
    ScaleUp(b, 0.0, m1);
    var x2, y2 := x1 * a1, y1 * a2;
    ScaleUp(x1, a1, a2);
    ScaleUpRight(x1, y1, a2);
    ScaleUp(x1, 0.0, a1);
    ScaleUp(x1, 0.0, a2);
    var x3, y3 := x2 * p1, y2 * p2;
    ScaleUp(x2, p1, p2);
    ScaleUpRight(x2, y2, p2);
    FloorMonotone(x3, y3);
  }

  /** A difficulty name outside the five known ones earns what Easy earns. */
  lemma UnknownDifficultyIsEasy(score: int, accuracy: real, difficulty: string, passed: bool)
    requires difficulty !in Difficulties
    ensures CalculateExperience(score, accuracy, difficulty, passed) == CalculateExperience(score, accuracy, "Easy", passed)
  {
  }

  /** Passing never earns less than failing the same play. */
  lemma PassNeverEarnsLess(score: int, accuracy: real, difficulty: string)
    requires score >= 0
    ensures CalculateExperience(score, accuracy, difficulty, true) >= CalculateExperience(score, accuracy, difficulty, false)
  {
    var m, a := DifficultyMultiplier(difficulty), AccuracyBonus(accuracy);
    AwardMonotone(BaseExperience(score), m, m, a, a, PassBonus(false), PassBonus(true));
  }

  /** Higher accuracy never earns less: the 70/85/95 tiers only step upwards. */
  lemma AccuracyNeverEarnsLess(score: int, acc1: real, acc2: real, difficulty: string, passed: bool)
    requires score >= 0 && acc1 <= acc2
    ensures CalculateExperience(score, acc1, difficulty, passed) <= CalculateExperience(score, acc2, difficulty, passed)
  {
    var m, p := DifficultyMultiplier(difficulty), PassBonus(passed);
    AwardMonotone(BaseExperience(score), m, m, AccuracyBonus(acc1), AccuracyBonus(acc2), p, p);
  }

  /** The multipliers rise along Easy, Normal, Hard, Expert, Master. */
  lemma MultiplierOrder(i: nat, j: nat)
    requires i <= j < |Difficulties|
    ensures DifficultyMultiplier(Difficulties[i]) <= DifficultyMultiplier(Difficulties[j])
  {
    assert DifficultyMultiplier(Difficulties[0]) == 1.0;
    assert DifficultyMultiplier(Difficulties[1]) == 1.2;
    assert DifficultyMultiplier(Difficulties[2]) == 1.5;
    assert DifficultyMultiplier(Difficulties[3]) == 2.0;
    assert DifficultyMultiplier(Difficulties[4]) == 2.5;
  }

  /** The difficulties earn in the order Easy <= Normal <= Hard <= Expert <= Master. */
  lemma HarderNeverEarnsLess(score: int, accuracy: real, passed: bool, i: nat, j: nat)
    requires score >= 0 && i <= j < |Difficulties|
    ensures CalculateExperience(score, accuracy, Difficulties[i], passed) <= CalculateExperience(score, accuracy, Difficulties[j], passed)
  {
    MultiplierOrder(i, j);
    var a, p := AccuracyBonus(accuracy), PassBonus(passed);
    AwardMonotone(BaseExperience(score), DifficultyMultiplier(Difficulties[i]), DifficultyMultiplier(Difficulties[j]), a, a, p, p);
  }

  // ---------------------------------------------------------------------------
  // Levels
  // ---------------------------------------------------------------------------

  /** The integer square root: the largest r with r * r <= n. */
  function Isqrt(n: nat): (r: nat)
    ensures r * r <= n < (r + 1) * (r + 1)
    decreases n
  {
    if n < 4 then (if n == 0 then 0 else 1)
    else
      var s := Isqrt(n / 4);
      IsqrtStep(n, s);
      var h := 2 * s;
      if (h + 1) * (h + 1) <= n then h + 1 else h
  }

  /** Doubling the root of n div 4 brackets the root of n within one. */
  lemma IsqrtStep(n: nat, s: nat)
    requires s * s <= n / 4 < (s + 1) * (s + 1)
    ensures (2 * s) * (2 * s) <= n < (2 * s + 2) * (2 * s + 2)
  {
    var q := n / 4;
    assert 4 * q <= n < 4 * q + 4;
    assert (2 * s) * (2 * s) == 4 * (s * s);
    assert (2 * s + 2) * (2 * s + 2) == 4 * ((s + 1) * (s + 1));
    assert q + 1 <= (s + 1) * (s + 1);
  }

  /** `calculateLevel(experience)`: level L spans [(L-1)^2 * 100, L^2 * 100). */
  function CalculateLevel(experience: nat): (level: nat)
    ensures level >= 1
    ensures (level - 1) * (level - 1) * 100 <= experience < level * level * 100
  {
    var r := Isqrt(experience / 100);
    assert r * r * 100 <= experience by {
      assert r * r <= experience / 100;
    }
    assert experience < (r + 1) * (r + 1) * 100 by {
      assert experience / 100 + 1 <= (r + 1) * (r + 1);
    }
    r + 1
  }

  /** `experienceToNextLevel(level)`: the experience at which the level is left behind. */
  function ExperienceToNextLevel(level: int): (e: int)
    ensures level >= 1 ==> e >= 100
  {
    level * level * 100
  }

  lemma SquareMonotone(a: nat, b: nat)
    requires a <= b
    ensures a * a <= b * b
  {
    assert a * a <= a * b <= b * b;
  }

  /** Only one level's band contains a given experience total. */
  lemma LevelBandUnique(experience: nat, l: nat)
    requires l >= 1
    requires (l - 1) * (l - 1) * 100 <= experience < l * l * 100
    ensures CalculateLevel(experience) == l
  {
    var c := CalculateLevel(experience);
    if c < l {
      SquareMonotone(c, l - 1);
    } else if c > l {
      SquareMonotone(l, c - 1);
    }
  }

  /** Level 1 is 0-99 experience, level 2 is 100-399, level 3 is 400-899. */
  lemma FirstLevels(experience: nat)
    ensures experience < 100 ==> CalculateLevel(experience) == 1
    ensures 100 <= experience < 400 ==> CalculateLevel(experience) == 2
    ensures 400 <= experience < 900 ==> CalculateLevel(experience) == 3
  {
    if experience < 100 {
      LevelBandUnique(experience, 1);
    } else if experience < 400 {
      LevelBandUnique(experience, 2);
    } else if experience < 900 {
      LevelBandUnique(experience, 3);
    }
  }

  /** More experience never means a lower level. */
  lemma LevelMonotone(e1: nat, e2: nat)
    requires e1 <= e2
    ensures 1 <= CalculateLevel(e1) <= CalculateLevel(e2)
  {
    var l1, l2 := CalculateLevel(e1), CalculateLevel(e2);
    if l1 > l2 {
      SquareMonotone(l2, l1 - 1);
    }
  }

  /** The threshold of level L is where level L+1 starts, and one point less is still level L. */
  lemma ThresholdStartsNextLevel(level: nat)
    requires level >= 1
    ensures CalculateLevel(ExperienceToNextLevel(level)) == level + 1
    ensures CalculateLevel(ExperienceToNextLevel(level) - 1) == level
  {
    ThresholdIsNextLevel(level);
    OneBelowThreshold(level);
  }

  /** The threshold itself already belongs to the next level. */
  lemma ThresholdIsNextLevel(level: nat)
    ensures CalculateLevel(level * level * 100) == level + 1
  {
    NextSquare(level);
    LevelBandUnique(level * level * 100, level + 1);
  }

  /** One point short of the threshold is still the same level. */
  lemma OneBelowThreshold(level: nat)
    requires level >= 1
    ensures CalculateLevel(level * level * 100 - 1) == level
  {
    NextSquare(level - 1);
    LevelBandUnique(level * level * 100 - 1, level);
  }

  /** Consecutive squares are at least one apart. */
  lemma NextSquare(n: nat)
    ensures n * n * 100 + 100 <= (n + 1) * (n + 1) * 100
  {
    assert (n + 1) * (n + 1) == n * n + 2 * n + 1;
  }

  /** Reaching the threshold of level L means a level above L. */
  lemma AboveThreshold(l: nat, e: nat)
    requires l >= 1 && e >= ExperienceToNextLevel(l)
    ensures CalculateLevel(e) > l
  {
    ThresholdStartsNextLevel(l);
    LevelMonotone(ExperienceToNextLevel(l), e);
  }

  /** Staying under the threshold of level L means a level of at most L. */
  lemma BelowThreshold(l: nat, e: nat)
    requires l >= 1 && e < ExperienceToNextLevel(l)
    ensures CalculateLevel(e) <= l
  {
    ThresholdStartsNextLevel(l);
    LevelMonotone(e, ExperienceToNextLevel(l) - 1);
  }

  /** Gaining experience raises the level exactly when the new total reaches the old level's threshold. */
  lemma LevelRisesIffThreshold(e0: nat, gained: nat)
    ensures CalculateLevel(e0 + gained) > CalculateLevel(e0) <==>
            e0 + gained >= ExperienceToNextLevel(CalculateLevel(e0))
  {
    var l := CalculateLevel(e0);
    if e0 + gained >= ExperienceToNextLevel(l) {
      AboveThreshold(l, e0 + gained);
    } else {
      BelowThreshold(l, e0 + gained);
    }
  }

  // ---------------------------------------------------------------------------
  // Character unlocks
  // ---------------------------------------------------------------------------

  /** The characters a level entitles a player to, in table order. */
  function EntitledCharacters(level: int): (cs: seq<string>)
    ensures forall c :: c in cs <==> exists k :: 0 <= k < |CharacterUnlockLevels| && CharacterUnlockLevels[k].0 == c && CharacterUnlockLevels[k].1 <= level
  {
    EntitledFrom(CharacterUnlockLevels, level)
  }

  function EntitledFrom(table: seq<(string, nat)>, level: int): (cs: seq<string>)
    ensures forall c :: c in cs <==> exists k :: 0 <= k < |table| && table[k].0 == c && table[k].1 <= level
  {
    if |table| == 0 then []
    else
      var rest := EntitledFrom(table[1..], level);
      assert forall k :: 1 <= k < |table| ==> table[k] == table[1..][k - 1];
      if table[0].1 <= level then [table[0].0] + rest else rest
  }

  /** Level 1 unlocks only ivy; levels 5, 10 and 20 add scal, lightren and winter. */
  lemma EntitlementsByLevel(level: int)
    ensures "ivy" in EntitledCharacters(level) <==> level >= 1
    ensures "scal" in EntitledCharacters(level) <==> level >= 5
    ensures "lightren" in EntitledCharacters(level) <==> level >= 10
    ensures "winter" in EntitledCharacters(level) <==> level >= 20
  {
    var t := CharacterUnlockLevels;
    assert t[0] == ("ivy", 1) && t[1] == ("scal", 5) && t[2] == ("lightren", 10) && t[3] == ("winter", 20);
  }
}
