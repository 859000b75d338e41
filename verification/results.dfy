/**
 * The grading on the results screen (client/src/components/ResultsScreen.tsx):
 * the full-combo and all-perfect flags, the rank shown in large letters and its
 * colour, and the pass rule, all read from the scoring store at the end of a run.
 */
module Results {
  import Rhythm

  /** No miss, and at least one judged note. */
  predicate IsFullCombo(h: Rhythm.HitCounts) {
    h.miss == 0 && Rhythm.Total(h) > 0
  }

  /** Only perfect judgements, and at least one. */
  predicate IsAllPerfect(h: Rhythm.HitCounts) {
    h.good == 0 && h.miss == 0 && Rhythm.Total(h) > 0
  }

  /** An all-perfect run is a full combo, and a run with no judged note is neither. */
  lemma AllPerfectIsFullCombo(h: Rhythm.HitCounts)
    ensures IsAllPerfect(h) ==> IsFullCombo(h)
    ensures Rhythm.Total(h) == 0 ==> !IsFullCombo(h) && !IsAllPerfect(h)
    ensures IsAllPerfect(h) <==> h.perfect > 0 && h.good == 0 && h.miss == 0
  {
  }

  /** A run passes with health left and at least 70 percent accuracy. */
  predicate IsPass(health: int, accuracy: real) {
    health > 0 && accuracy >= 70.0
  }

  /** The seven ranks, best first. */
  datatype Tier = AllPerfect | FullCombo | S | A | B | C | D

  /** The rank a run earns: the flags first, then the accuracy thresholds 95, 85, 70 and 60. */
  function TierOf(h: Rhythm.HitCounts, accuracy: real): (t: Tier)
    ensures t == AllPerfect <==> IsAllPerfect(h)
    ensures t == FullCombo <==> IsFullCombo(h) && !IsAllPerfect(h)
    ensures !IsFullCombo(h) ==>
      && (t == S <==> accuracy >= 95.0)
      && (t == A <==> 85.0 <= accuracy < 95.0)
      && (t == B <==> 70.0 <= accuracy < 85.0)
      && (t == C <==> 60.0 <= accuracy < 70.0)
      && (t == D <==> accuracy < 60.0)
  {
    if IsAllPerfect(h) then AllPerfect
    else if IsFullCombo(h) then FullCombo
    else if accuracy >= 95.0 then S
    else if accuracy >= 85.0 then A
    else if accuracy >= 70.0 then B
    else if accuracy >= 60.0 then C
    else D
  }

  function TextOf(t: Tier): string {
    match t
    case AllPerfect => "ALL PERFECT!!"
    case FullCombo => "FULL COMBO!"
    case S => "S"
    case A => "A"
    case B => "B"
    case C => "C"
    case D => "D"
  }

  function ColourOf(t: Tier): string {
    match t
    case AllPerfect => "text-yellow-300"
    case FullCombo => "text-purple-300"
    case S => "text-green-300"
    case A => "text-blue-300"
    case B => "text-orange-300"
    case C => "text-yellow-500"
    case D => "text-red-300"
  }

  /** Different ranks show different texts and different colours. */
  lemma TextAndColourDistinguishTiers(t1: Tier, t2: Tier)
    ensures TextOf(t1) == TextOf(t2) <==> t1 == t2
    ensures ColourOf(t1) == ColourOf(t2) <==> t1 == t2
  {
  }

  /** `getRankText()`, its own cascade as written. */
  function RankText(h: Rhythm.HitCounts, accuracy: real): (r: string)
    ensures r == TextOf(TierOf(h, accuracy))
  {
    if IsAllPerfect(h) then "ALL PERFECT!!"
    else if IsFullCombo(h) then "FULL COMBO!"
    else if accuracy >= 95.0 then "S"
    else if accuracy >= 85.0 then "A"
    else if accuracy >= 70.0 then "B"
    else if accuracy >= 60.0 then "C"
    else "D"
  }

  /** `getRankColor()`, its own cascade as written. */
  function RankColour(h: Rhythm.HitCounts, accuracy: real): (r: string)
    ensures r == ColourOf(TierOf(h, accuracy))
  {
    if IsAllPerfect(h) then "text-yellow-300"
    else if IsFullCombo(h) then "text-purple-300"
    else if accuracy >= 95.0 then "text-green-300"
    else if accuracy >= 85.0 then "text-blue-300"
    else if accuracy >= 70.0 then "text-orange-300"
    else if accuracy >= 60.0 then "text-yellow-500"
    else "text-red-300"
  }

  /** The colour and the text always name the same rank. */
  lemma ColourMatchesText(h1: Rhythm.HitCounts, a1: real, h2: Rhythm.HitCounts, a2: real)
    ensures RankText(h1, a1) == RankText(h2, a2) <==> RankColour(h1, a1) == RankColour(h2, a2)
  {
    TextAndColourDistinguishTiers(TierOf(h1, a1), TierOf(h2, a2));
  }

  /** A passing run without a full combo is ranked S, A or B. */
  lemma PassWithoutFullComboRanksB(h: Rhythm.HitCounts, health: int, accuracy: real)
    requires IsPass(health, accuracy) && !IsFullCombo(h)
    ensures RankText(h, accuracy) in {"S", "A", "B"}
  {
  }

  /**
   * With the store's accuracy, a run with at least one judged note is a full combo
   * exactly when its accuracy is 100; a run with none has accuracy 100 and is ranked S.
   */
  lemma FullComboIffPerfectAccuracy(h: Rhythm.HitCounts)
    ensures Rhythm.Total(h) > 0 ==> (IsFullCombo(h) <==> Rhythm.Accuracy(h) == 100.0)
    ensures Rhythm.Total(h) == 0 ==> RankText(h, Rhythm.Accuracy(h)) == "S"
  {
  }
}
