/**
 * The prediction engine: the total number of selections taken from a form
 * snapshot, the "ESI" bucket it falls into, the show-up outcome taken from the
 * submission counter, and the colour classes the result view uses per level.
 */
module Prediction {
  import opened Counting
  import opened Form
  import opened FormCounts

  /** The `prediction` record. */
  datatype Prediction = Prediction(willShowUp: bool, esiLevel: int)

  /** The record before the first submission; level 0 is outside the 1-5 scale. */
  const InitialPrediction: Prediction := Prediction(false, 0)

  /** `totalSelections`: checked conditions plus checked symptoms. */
  function TotalSelections(f: FormState): (n: nat)
    ensures n <= |Conditions| + |AllSymptoms|
  {
    ConditionCount(f) + SymptomCount(f.symptoms)
  }

  /**
   * The threshold chain: the first of 8, 6, 4, 2 that the total reaches picks
   * 5, 4, 3, 2; otherwise 1. In closed form: one level per two selections,
   * capped at 5, i.e. min(5, total / 2 + 1) for a total that can occur.
   */
  function EsiLevel(total: int): (level: int)
    ensures 1 <= level <= 5
    ensures total >= 0 ==> 2 * (level - 1) <= total && (level == 5 || total < 2 * level)
  {
    if total >= 8 then 5
    else if total >= 6 then 4
    else if total >= 4 then 3
    else if total >= 2 then 2
    else 1
  }

  /** Each level is reached exactly from its threshold upward. */
  lemma EsiLevelThreshold(total: int, k: int)
    requires 2 <= k <= 5
    ensures EsiLevel(total) >= k <==> total >= 2 * (k - 1)
  {
  }

  /** More selections never give a lower level. */
  lemma EsiLevelMonotone(a: int, b: int)
    requires a <= b
    ensures EsiLevel(a) <= EsiLevel(b)
  {
  }

  /** The prediction for a form snapshot, given the counter value read before the increment. */
  function Predict(f: FormState, countBefore: nat): (p: Prediction)
    ensures p.willShowUp <==> countBefore % 2 == 0
    ensures 1 <= p.esiLevel <= 5
  {
    Prediction(countBefore % 2 == 0, EsiLevel(TotalSelections(f)))
  }

  /** The level depends on the form only; the counter decides only the show-up outcome. */
  lemma PredictLevelIgnoresCounter(f: FormState, c1: nat, c2: nat)
    ensures Predict(f, c1).esiLevel == Predict(f, c2).esiLevel
    ensures Predict(f, c1).willShowUp == Predict(f, c2).willShowUp <==> c1 % 2 == c2 % 2
  {
  }

  /** The show-up outcome ignores the form entirely. */
  lemma PredictShowUpIgnoresForm(f: FormState, g: FormState, count: nat)
    ensures Predict(f, count).willShowUp == Predict(g, count).willShowUp
  {
  }

  /** Successive counter values give opposite show-up outcomes. */
  lemma PredictShowUpAlternates(f: FormState, g: FormState, count: nat)
    ensures Predict(g, count + 1).willShowUp == !Predict(f, count).willShowUp
  {
  }

  /** A record with nothing checked gives total 0 and so level 1, whatever its strings hold. */
  lemma {:induction false} NothingCheckedIsLevelOne(f: FormState)
    requires forall flag: Flag :: !FlagValue(f, flag)
    requires forall symptom: Symptom :: !SymptomValue(f.symptoms, symptom)
    ensures TotalSelections(f) == 0
    ensures Predict(f, 0) == Prediction(true, 1)
  {
    ConditionCountZeroIff(f);
    SymptomCountZeroIff(f.symptoms);
  }

  /** The total is zero exactly when no condition and no symptom is checked; `smsReceived` is free. */
  lemma {:induction false} TotalSelectionsZeroIff(f: FormState)
    ensures TotalSelections(f) == 0 <==>
      (forall c: Flag :: c != SmsReceived ==> !FlagValue(f, c)) &&
      (forall symptom: Symptom :: !SymptomValue(f.symptoms, symptom))
  {
    ConditionCountZeroIff(f);
    SymptomCountZeroIff(f.symptoms);
  }

  /** Every box checked (all nine conditions and all seven symptoms) gives the maximum total, 16. */
  lemma {:induction false} EverythingCheckedIsSixteen(f: FormState)
    requires forall c: Flag :: c != SmsReceived ==> FlagValue(f, c)
    requires forall symptom: Symptom :: SymptomValue(f.symptoms, symptom)
    ensures TotalSelections(f) == 16
    ensures EsiLevel(TotalSelections(f)) == 5
  {
    ConditionCountFullIff(f);
    SymptomCountFullIff(f.symptoms);
  }

  /** `getEsiColor`: text and background classes for a level, or no class at all. */
  function EsiColor(level: int): (classes: string)
    ensures classes != "" <==> 1 <= level <= 5
  {
    match level
    case 1 => "text-red-600 bg-red-100"
    case 2 => "text-orange-600 bg-orange-100"
    case 3 => "text-yellow-600 bg-yellow-100"
    case 4 => "text-blue-600 bg-blue-100"
    case 5 => "text-green-600 bg-green-100"
    case _ => ""
  }

  /** Distinct levels on the scale get distinct classes (they differ in the colour's first letter). */
  lemma {:induction false} EsiColorDistinct(a: int, b: int)
    requires 1 <= a <= 5 && 1 <= b <= 5 && a != b
    ensures EsiColor(a) != EsiColor(b)
  {
    assert EsiColor(a)[5] != EsiColor(b)[5];
  }
}
