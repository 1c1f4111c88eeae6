/**
 * The form state store of the health prediction page: the `formData` record,
 * the single-field updates performed by the change handlers, the default
 * record restored by a reset, and the two counts the prediction engine takes
 * from a snapshot of the record.
 */
module Form {
  import opened Counting

  /** The ten top-level checkbox flags, in the order the record declares them. */
  datatype Flag =
    | Scholarship | Hypertension | Diabetes | HeartDisease | Asthma
    | Depression | BackProblems | Alcoholism | Handicap | SmsReceived

  /** The six top-level string fields (numeric strings, a select, free text). */
  datatype TextField = Age | Gender | WaitingDays | Neighbourhood | Medications | OtherConditions

  /** The seven flags of the nested `symptoms` record. */
  datatype Symptom =
    | AnxietyDisorders | Cancer | KidneyDisease | LiverDisease | Stroke | Epilepsy | Osteoporosis

  datatype Symptoms = Symptoms(
    anxietyDisorders: bool,
    cancer: bool,
    kidneyDisease: bool,
    liverDisease: bool,
    stroke: bool,
    epilepsy: bool,
    osteoporosis: bool)

  /** The `formData` record; strings are kept opaque, none is ever parsed. */
  datatype FormState = FormState(
    age: string,
    gender: string,
    scholarship: bool,
    hypertension: bool,
    diabetes: bool,
    heartDisease: bool,
    asthma: bool,
    depression: bool,
    backProblems: bool,
    alcoholism: bool,
    handicap: bool,
    smsReceived: bool,
    waitingDays: string,
    neighbourhood: string,
    medications: string,
    otherConditions: string,
    symptoms: Symptoms)

  const NoSymptoms: Symptoms := Symptoms(false, false, false, false, false, false, false)

  /** The record the page starts with and a reset restores. */
  const InitialForm: FormState :=
    FormState("", "", false, false, false, false, false, false, false, false, false, false,
              "", "", "", "", NoSymptoms)

  /** The flags that count as conditions: every top-level flag except `smsReceived`. */
  const Conditions: seq<Flag> :=
    [Scholarship, Hypertension, Diabetes, HeartDisease, Asthma, Depression, BackProblems, Alcoholism, Handicap]

  const AllSymptoms: seq<Symptom> :=
    [AnxietyDisorders, Cancer, KidneyDisease, LiverDisease, Stroke, Epilepsy, Osteoporosis]

  // ---------------------------------------------------------------------------
  // Field access by name

  function FlagValue(f: FormState, flag: Flag): bool {
    match flag
    case Scholarship => f.scholarship
    case Hypertension => f.hypertension
    case Diabetes => f.diabetes
    case HeartDisease => f.heartDisease
    case Asthma => f.asthma
    case Depression => f.depression
    case BackProblems => f.backProblems
    case Alcoholism => f.alcoholism
    case Handicap => f.handicap
    case SmsReceived => f.smsReceived
  }

  function TextValue(f: FormState, field: TextField): string {
    match field
    case Age => f.age
    case Gender => f.gender
    case WaitingDays => f.waitingDays
    case Neighbourhood => f.neighbourhood
    case Medications => f.medications
    case OtherConditions => f.otherConditions
  }

  function SymptomValue(s: Symptoms, symptom: Symptom): bool {
    match symptom
    case AnxietyDisorders => s.anxietyDisorders
    case Cancer => s.cancer
    case KidneyDisease => s.kidneyDisease
    case LiverDisease => s.liverDisease
    case Stroke => s.stroke
    case Epilepsy => s.epilepsy
    case Osteoporosis => s.osteoporosis
  }

  /** Position of a condition in `Conditions` (and of its value in `ConditionValues`). */
  function ConditionIndex(c: Flag): (i: nat)
    requires c != SmsReceived
    ensures i < |Conditions| && Conditions[i] == c
  {
    match c
    case Scholarship => 0
    case Hypertension => 1
    case Diabetes => 2
    case HeartDisease => 3
    case Asthma => 4
    case Depression => 5
    case BackProblems => 6
    case Alcoholism => 7
    case Handicap => 8
  }

  /** Position of a symptom in `AllSymptoms` (and of its value in `SymptomValues`). */
  function SymptomIndex(symptom: Symptom): (i: nat)
    ensures i < |AllSymptoms| && AllSymptoms[i] == symptom
  {
    match symptom
    case AnxietyDisorders => 0
    case Cancer => 1
    case KidneyDisease => 2
    case LiverDisease => 3
    case Stroke => 4
    case Epilepsy => 5
    case Osteoporosis => 6
  }

  /** Every flag but `smsReceived` is a condition. */
  lemma {:induction false} ConditionsEnumerate(c: Flag)
    ensures c in Conditions <==> c != SmsReceived
  {
  }

  /** `ConditionIndex` inverts indexing into `Conditions`, so each condition is listed once. */
  lemma {:induction false} ConditionIndexOf(i: nat)
    requires i < |Conditions|
    ensures Conditions[i] != SmsReceived && ConditionIndex(Conditions[i]) == i
  {
  }

  lemma {:induction false} SymptomIndexOf(i: nat)
    requires i < |AllSymptoms|
    ensures SymptomIndex(AllSymptoms[i]) == i
  {
  }

  /** A record holds its default values exactly when every flag is off and every string empty. */
  ghost predicate IsDefault(f: FormState) {
    (forall flag: Flag :: !FlagValue(f, flag)) &&
    (forall field: TextField :: TextValue(f, field) == "") &&
    (forall symptom: Symptom :: !SymptomValue(f.symptoms, symptom))
  }

  lemma {:induction false} IsDefaultIff(f: FormState)
    ensures IsDefault(f) <==> f == InitialForm
  {
    if IsDefault(f) {
      assert !FlagValue(f, Scholarship) && !FlagValue(f, Hypertension) && !FlagValue(f, Diabetes);
      assert !FlagValue(f, HeartDisease) && !FlagValue(f, Asthma) && !FlagValue(f, Depression);
      assert !FlagValue(f, BackProblems) && !FlagValue(f, Alcoholism) && !FlagValue(f, Handicap);
      assert !FlagValue(f, SmsReceived);
      assert TextValue(f, Age) == "" && TextValue(f, Gender) == "" && TextValue(f, WaitingDays) == "";
      assert TextValue(f, Neighbourhood) == "" && TextValue(f, Medications) == "";
      assert TextValue(f, OtherConditions) == "";
      var s := f.symptoms;
      assert !SymptomValue(s, AnxietyDisorders) && !SymptomValue(s, Cancer) && !SymptomValue(s, KidneyDisease);
      assert !SymptomValue(s, LiverDisease) && !SymptomValue(s, Stroke) && !SymptomValue(s, Epilepsy);
      assert !SymptomValue(s, Osteoporosis);
    }
  }

  /** Two records agree on all ten top-level flags. */
  predicate SameFlags(f: FormState, g: FormState) {
    f.scholarship == g.scholarship && f.hypertension == g.hypertension &&
    f.diabetes == g.diabetes && f.heartDisease == g.heartDisease &&
    f.asthma == g.asthma && f.depression == g.depression &&
    f.backProblems == g.backProblems && f.alcoholism == g.alcoholism &&
    f.handicap == g.handicap && f.smsReceived == g.smsReceived
  }

  /** Two records agree on all six string fields. */
  predicate SameText(f: FormState, g: FormState) {
    f.age == g.age && f.gender == g.gender && f.waitingDays == g.waitingDays &&
    f.neighbourhood == g.neighbourhood && f.medications == g.medications &&
    f.otherConditions == g.otherConditions
  }

  lemma {:induction false} SameFlagsConditionValues(f: FormState, g: FormState)
    requires SameFlags(f, g)
    ensures ConditionValues(f) == ConditionValues(g)
  {
    forall i | 0 <= i < |Conditions| ensures ConditionValues(f)[i] == ConditionValues(g)[i] {
      SameFlagsFlagValue(f, g, Conditions[i]);
    }
  }

  lemma {:induction false} SameFlagsFlagValue(f: FormState, g: FormState, flag: Flag)
    requires SameFlags(f, g)
    ensures FlagValue(f, flag) == FlagValue(g, flag)
  {
  }

  // ---------------------------------------------------------------------------
  // Single-field updates (the spread-and-override of the change handlers)

  /** `{...formData, [name]: checked}` for a checkbox flag. */
  function WithFlag(f: FormState, flag: Flag, checked: bool): (r: FormState)
    ensures FlagValue(r, flag) == checked
    ensures SameText(r, f) && r.symptoms == f.symptoms
  {
    match flag
    case Scholarship => f.(scholarship := checked)
    case Hypertension => f.(hypertension := checked)
    case Diabetes => f.(diabetes := checked)
    case HeartDisease => f.(heartDisease := checked)
    case Asthma => f.(asthma := checked)
    case Depression => f.(depression := checked)
    case BackProblems => f.(backProblems := checked)
    case Alcoholism => f.(alcoholism := checked)
    case Handicap => f.(handicap := checked)
    case SmsReceived => f.(smsReceived := checked)
  }

  /** Setting one flag leaves every other flag as it was. */
  lemma {:induction false} WithFlagFrame(f: FormState, flag: Flag, checked: bool, other: Flag)
    requires other != flag
    ensures FlagValue(WithFlag(f, flag, checked), other) == FlagValue(f, other)
  {
    match flag
    case Scholarship =>
    case Hypertension =>
    case Diabetes =>
    case HeartDisease =>
    case Asthma =>
    case Depression =>
    case BackProblems =>
    case Alcoholism =>
    case Handicap =>
    case SmsReceived =>
  }

  /** `{...formData, [name]: value}` for a string field. */
  function WithText(f: FormState, field: TextField, value: string): (r: FormState)
    ensures TextValue(r, field) == value
    ensures SameFlags(r, f) && r.symptoms == f.symptoms
  {
    match field
    case Age => f.(age := value)
    case Gender => f.(gender := value)
    case WaitingDays => f.(waitingDays := value)
    case Neighbourhood => f.(neighbourhood := value)
    case Medications => f.(medications := value)
    case OtherConditions => f.(otherConditions := value)
  }

  /** Setting one string field leaves every other string field as it was. */
  lemma {:induction false} WithTextFrame(f: FormState, field: TextField, value: string, other: TextField)
    requires other != field
    ensures TextValue(WithText(f, field, value), other) == TextValue(f, other)
  {
    match field
    case Age =>
    case Gender =>
    case WaitingDays =>
    case Neighbourhood =>
    case Medications =>
    case OtherConditions =>
  }

  /** `{...formData.symptoms, [symptom]: checked}`. */
  function SymptomsWith(s: Symptoms, symptom: Symptom, checked: bool): (r: Symptoms)
    ensures SymptomValue(r, symptom) == checked
  {
    match symptom
    case AnxietyDisorders => s.(anxietyDisorders := checked)
    case Cancer => s.(cancer := checked)
    case KidneyDisease => s.(kidneyDisease := checked)
    case LiverDisease => s.(liverDisease := checked)
    case Stroke => s.(stroke := checked)
    case Epilepsy => s.(epilepsy := checked)
    case Osteoporosis => s.(osteoporosis := checked)
  }

  /** Setting one symptom leaves every other symptom as it was. */
  lemma {:induction false} SymptomsWithFrame(s: Symptoms, symptom: Symptom, checked: bool, other: Symptom)
    requires other != symptom
    ensures SymptomValue(SymptomsWith(s, symptom, checked), other) == SymptomValue(s, other)
  {
    match symptom
    case AnxietyDisorders =>
    case Cancer =>
    case KidneyDisease =>
    case LiverDisease =>
    case Stroke =>
    case Epilepsy =>
    case Osteoporosis =>
  }

  /** `{...formData, symptoms: {...formData.symptoms, [symptom]: checked}}`. */
  function WithSymptom(f: FormState, symptom: Symptom, checked: bool): (r: FormState)
    ensures SymptomValue(r.symptoms, symptom) == checked
    ensures SameFlags(r, f) && SameText(r, f)
  {
    f.(symptoms := SymptomsWith(f.symptoms, symptom, checked))
  }

  // ---------------------------------------------------------------------------
  // Object.entries(formData): each top-level key with a value of its runtime type

  /** What `typeof` tells apart among the record's values. */
  datatype Value = Text(text: string) | Bool(flag: bool) | Object(symptoms: Symptoms)

  datatype Entry = Entry(key: string, value: Value)

  /** Every top-level flag, in declaration order. */
  const AllFlags: seq<Flag> := Conditions + [SmsReceived]

  /** The key under which the record stores a flag. */
  function FlagKey(flag: Flag): string {
    match flag
    case Scholarship => "scholarship"
    case Hypertension => "hypertension"
    case Diabetes => "diabetes"
    case HeartDisease => "heartDisease"
    case Asthma => "asthma"
    case Depression => "depression"
    case BackProblems => "backProblems"
    case Alcoholism => "alcoholism"
    case Handicap => "handicap"
    case SmsReceived => "smsReceived"
  }

  /** Only `smsReceived` is stored under the key the filter excludes. */
  lemma {:induction false} FlagKeyExcluded(flag: Flag)
    ensures FlagKey(flag) == "smsReceived" <==> flag == SmsReceived
  {
    match flag
    case Scholarship => assert FlagKey(flag)[1] != "smsReceived"[1];
    case Hypertension =>
    case Diabetes =>
    case HeartDisease =>
    case Asthma =>
    case Depression =>
    case BackProblems =>
    case Alcoholism =>
    case Handicap =>
    case SmsReceived =>
  }

  /** The record's entries in insertion order. */
  function Entries(f: FormState): (es: seq<Entry>)
    ensures |es| == 17
  {
    [Entry("age", Text(f.age)), Entry("gender", Text(f.gender))]
    + FlagEntries(f)
    + [ Entry("waitingDays", Text(f.waitingDays)),
        Entry("neighbourhood", Text(f.neighbourhood)),
        Entry("medications", Text(f.medications)),
        Entry("otherConditions", Text(f.otherConditions)),
        Entry("symptoms", Object(f.symptoms)) ]
  }

  /** The entries of the ten flags, `scholarship` through `smsReceived`. */
  function FlagEntries(f: FormState): (es: seq<Entry>)
    ensures |es| == |AllFlags|
  {
    seq(|AllFlags|, i requires 0 <= i < |AllFlags| => Entry(FlagKey(AllFlags[i]), Bool(FlagValue(f, AllFlags[i]))))
  }

  /** The filter applied to each entry: a boolean, `true`, and not `smsReceived`. */
  predicate Counted(e: Entry) {
    e.value.Bool? && e.value.flag == true && e.key != "smsReceived"
  }

  /** `entries.filter(Counted)`, keeping order. */
  function FilterCounted(es: seq<Entry>): (r: seq<Entry>)
    ensures |r| <= |es|
    ensures forall e :: e in r ==> e in es && Counted(e)
  {
    if es == [] then []
    else if Counted(es[0]) then [es[0]] + FilterCounted(es[1..])
    else FilterCounted(es[1..])
  }

  /** Which entries the filter keeps. */
  function CountedMask(es: seq<Entry>): (m: seq<bool>)
    ensures |m| == |es|
  {
    seq(|es|, i requires 0 <= i < |es| => Counted(es[i]))
  }

  /** The length of the filtered entries is the number of entries the filter keeps. */
  lemma {:induction false} FilterCountedLength(es: seq<Entry>)
    ensures |FilterCounted(es)| == CountTrue(CountedMask(es))
  {
    if es != [] {
      assert CountedMask(es)[1..] == CountedMask(es[1..]);
      FilterCountedLength(es[1..]);
    }
  }

  /** The values of the nine condition flags, in declaration order. */
  function ConditionValues(f: FormState): (vs: seq<bool>)
    ensures |vs| == |Conditions|
  {
    seq(|Conditions|, i requires 0 <= i < |Conditions| => FlagValue(f, Conditions[i]))
  }

  /** `Object.values(formData.symptoms)`, in declaration order. */
  function SymptomValues(s: Symptoms): (vs: seq<bool>)
    ensures |vs| == |AllSymptoms|
  {
    seq(|AllSymptoms|, i requires 0 <= i < |AllSymptoms| => SymptomValue(s, AllSymptoms[i]))
  }

  /**
   * The filter keeps exactly the condition flags that are on: the string
   * fields and the nested symptoms record fail the type test, and
   * `smsReceived` fails the key test.
   */
  lemma {:induction false} CountedMaskOfEntries(f: FormState)
    ensures CountedMask(Entries(f)) == [false, false] + ConditionValues(f) + [false, false, false, false, false, false]
  {
    FlagEntriesMask(f);
    var lead := [Entry("age", Text(f.age)), Entry("gender", Text(f.gender))];
    var trail := Entries(f)[2 + |AllFlags|..];
    assert Entries(f) == lead + FlagEntries(f) + trail;
    assert CountedMask(lead) == [false, false];
    assert CountedMask(trail) == [false, false, false, false, false];
    CountedMaskAppend(lead, FlagEntries(f));
    CountedMaskAppend(lead + FlagEntries(f), trail);
  }

  lemma {:induction false} CountedMaskAppend(a: seq<Entry>, b: seq<Entry>)
    ensures CountedMask(a + b) == CountedMask(a) + CountedMask(b)
  {
    assert forall i :: 0 <= i < |a + b| ==> CountedMask(a + b)[i] == (CountedMask(a) + CountedMask(b))[i];
  }

  /** The filter keeps a flag entry exactly when it is a condition that is on. */
  lemma {:induction false} FlagEntriesMask(f: FormState)
    ensures CountedMask(FlagEntries(f)) == ConditionValues(f) + [false]
  {
    forall i | 0 <= i < |AllFlags|
      ensures CountedMask(FlagEntries(f))[i] == (ConditionValues(f) + [false])[i]
    {
      FlagKeyExcluded(AllFlags[i]);
      if i < |Conditions| {
        ConditionIndexOf(i);
      }
    }
  }

  /** `conditionCount`: the length of the filtered entries. */
  function ConditionCount(f: FormState): (n: nat)
    ensures n == CountTrue(ConditionValues(f))
    ensures n <= |Conditions|
  {
    FilterCountedLength(Entries(f));
    CountedMaskOfEntries(f);
    CountTrueAppend([false, false] + ConditionValues(f), [false, false, false, false, false, false]);
    CountTrueAppend([false, false], ConditionValues(f));
    CountTrueZeroIff([false, false]);
    CountTrueZeroIff([false, false, false, false, false, false]);
    |FilterCounted(Entries(f))|
  }

  /** `symptomCount`: every symptom flag that is on counts. */
  function SymptomCount(s: Symptoms): (n: nat)
    ensures n <= |AllSymptoms|
  {
    CountTrue(SymptomValues(s))
  }
}

// Properties of the two counts, in terms of the flags they are taken from.
module FormCounts {
  import opened Counting
  import opened Form

  lemma {:induction false} ConditionValueAt(f: FormState, c: Flag)
    requires c != SmsReceived
    ensures ConditionValues(f)[ConditionIndex(c)] == FlagValue(f, c)
  {
  }

  lemma {:induction false} SymptomValueAt(s: Symptoms, symptom: Symptom)
    ensures SymptomValues(s)[SymptomIndex(symptom)] == SymptomValue(s, symptom)
  {
  }

  lemma {:induction false} ConditionValueWithFlagAt(f: FormState, c: Flag, checked: bool, i: nat)
    requires c != SmsReceived && i < |Conditions|
    ensures ConditionValues(WithFlag(f, c, checked))[i] == if i == ConditionIndex(c) then checked else ConditionValues(f)[i]
  {
    var other := Conditions[i];
    ConditionIndexOf(i);
    if other != c {
      WithFlagFrame(f, c, checked, other);
    }
  }

  /** Checking a condition replaces its value, and only its value, among the condition values. */
  lemma {:induction false} ConditionValuesWithFlag(f: FormState, c: Flag, checked: bool)
    requires c != SmsReceived
    ensures ConditionValues(WithFlag(f, c, checked)) == ConditionValues(f)[ConditionIndex(c) := checked]
  {
    forall i | 0 <= i < |Conditions|
      ensures ConditionValues(WithFlag(f, c, checked))[i] == ConditionValues(f)[ConditionIndex(c) := checked][i]
    {
      ConditionValueWithFlagAt(f, c, checked, i);
    }
  }

  lemma {:induction false} SymptomValueWithAt(s: Symptoms, symptom: Symptom, checked: bool, i: nat)
    requires i < |AllSymptoms|
    ensures SymptomValues(SymptomsWith(s, symptom, checked))[i] == if i == SymptomIndex(symptom) then checked else SymptomValues(s)[i]
  {
    var other := AllSymptoms[i];
    SymptomIndexOf(i);
    if other != symptom {
      SymptomsWithFrame(s, symptom, checked, other);
    }
  }

  /** Checking a symptom replaces its value, and only its value, among the symptom values. */
  lemma {:induction false} SymptomValuesWith(s: Symptoms, symptom: Symptom, checked: bool)
    ensures SymptomValues(SymptomsWith(s, symptom, checked)) == SymptomValues(s)[SymptomIndex(symptom) := checked]
  {
    forall i | 0 <= i < |AllSymptoms|
      ensures SymptomValues(SymptomsWith(s, symptom, checked))[i] == SymptomValues(s)[SymptomIndex(symptom) := checked][i]
    {
      SymptomValueWithAt(s, symptom, checked, i);
    }
  }

  /** Checking or unchecking a condition moves the count by exactly that flag's change. */
  lemma {:induction false} ConditionCountWithFlag(f: FormState, c: Flag, checked: bool)
    requires c != SmsReceived
    ensures ConditionCount(WithFlag(f, c, checked))
         == ConditionCount(f) - Indicator(FlagValue(f, c)) + Indicator(checked)
  {
    ConditionValuesWithFlag(f, c, checked);
    ConditionValueAt(f, c);
    CountTrueUpdate(ConditionValues(f), ConditionIndex(c), checked);
  }

  /** `smsReceived` never contributes to the condition count. */
  lemma {:induction false} ConditionCountIgnoresSms(f: FormState, checked: bool)
    ensures ConditionCount(WithFlag(f, SmsReceived, checked)) == ConditionCount(f)
  {
    var r := WithFlag(f, SmsReceived, checked);
    forall i | 0 <= i < |Conditions| ensures ConditionValues(r)[i] == ConditionValues(f)[i] {
      ConditionIndexOf(i);
      WithFlagFrame(f, SmsReceived, checked, Conditions[i]);
    }
    assert ConditionValues(r) == ConditionValues(f);
  }

  /** The string fields never contribute to the condition count. */
  lemma {:induction false} ConditionCountIgnoresText(f: FormState, field: TextField, value: string)
    ensures ConditionCount(WithText(f, field, value)) == ConditionCount(f)
  {
    SameFlagsConditionValues(WithText(f, field, value), f);
  }

  /** The nested symptoms record never contributes to the condition count. */
  lemma {:induction false} ConditionCountIgnoresSymptoms(f: FormState, symptom: Symptom, checked: bool)
    ensures ConditionCount(WithSymptom(f, symptom, checked)) == ConditionCount(f)
  {
    SameFlagsConditionValues(WithSymptom(f, symptom, checked), f);
  }

  /** The condition count is zero exactly when no condition is checked. */
  lemma {:induction false} ConditionCountZeroIff(f: FormState)
    ensures ConditionCount(f) == 0 <==> forall c: Flag :: c != SmsReceived ==> !FlagValue(f, c)
  {
    CountTrueZeroIff(ConditionValues(f));
    if ConditionCount(f) == 0 {
      forall c: Flag | c != SmsReceived ensures !FlagValue(f, c) {
        ConditionValueAt(f, c);
      }
    } else {
      var i :| 0 <= i < |Conditions| && ConditionValues(f)[i];
      ConditionIndexOf(i);
    }
  }

  /** The condition count is nine exactly when every condition is checked. */
  lemma {:induction false} ConditionCountFullIff(f: FormState)
    ensures ConditionCount(f) == |Conditions| <==> forall c: Flag :: c != SmsReceived ==> FlagValue(f, c)
  {
    CountTrueFullIff(ConditionValues(f));
    if ConditionCount(f) == |Conditions| {
      forall c: Flag | c != SmsReceived ensures FlagValue(f, c) {
        ConditionValueAt(f, c);
      }
    } else {
      var i :| 0 <= i < |Conditions| && !ConditionValues(f)[i];
      ConditionIndexOf(i);
    }
  }

  /** Checking or unchecking a symptom moves the count by exactly that flag's change. */
  lemma {:induction false} SymptomCountWith(s: Symptoms, symptom: Symptom, checked: bool)
    ensures SymptomCount(SymptomsWith(s, symptom, checked))
         == SymptomCount(s) - Indicator(SymptomValue(s, symptom)) + Indicator(checked)
  {
    SymptomValuesWith(s, symptom, checked);
    SymptomValueAt(s, symptom);
    CountTrueUpdate(SymptomValues(s), SymptomIndex(symptom), checked);
  }

  /** The symptom count is zero exactly when no symptom is checked. */
  lemma {:induction false} SymptomCountZeroIff(s: Symptoms)
    ensures SymptomCount(s) == 0 <==> forall symptom: Symptom :: !SymptomValue(s, symptom)
  {
    CountTrueZeroIff(SymptomValues(s));
    if SymptomCount(s) == 0 {
      forall symptom: Symptom ensures !SymptomValue(s, symptom) {
        SymptomValueAt(s, symptom);
      }
    } else {
      var i :| 0 <= i < |AllSymptoms| && SymptomValues(s)[i];
    }
  }

  /** The symptom count is seven exactly when every symptom is checked: none is excluded. */
  lemma {:induction false} SymptomCountFullIff(s: Symptoms)
    ensures SymptomCount(s) == |AllSymptoms| <==> forall symptom: Symptom :: SymptomValue(s, symptom)
  {
    CountTrueFullIff(SymptomValues(s));
    if SymptomCount(s) == |AllSymptoms| {
      forall symptom: Symptom ensures SymptomValue(s, symptom) {
        SymptomValueAt(s, symptom);
      }
    } else {
      var i :| 0 <= i < |AllSymptoms| && !SymptomValues(s)[i];
    }
  }
}
