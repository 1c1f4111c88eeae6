/**
 * The page's session: the submission counter, the form/result view flag, the
 * form record and the last prediction, changed by the five event handlers.
 *
 * `Step` states each handler's effect on a value of the whole session; the
 * class `HealthPredictionApp` holds the same four pieces of state as fields
 * and its methods are proved to perform exactly those steps. Lemmas about
 * sequences of events (`Run`) state what holds across a session.
 */
module Session {
  import opened Counting
  import opened Form
  import opened FormCounts
  import opened Prediction

  /** The `e.target` of an event routed to `handleInputChange`. */
  datatype Target =
    | Checkbox(flag: Flag, checked: bool)
    | Field(field: TextField, value: string)

  /** One user interaction. */
  datatype Event =
    | Submit
    | Reset
    | InputChange(target: Target)
    | SymptomChange(symptom: Symptom, checked: bool)
    | SelectChange(field: TextField, value: string)

  datatype SessionState = SessionState(
    submissionCount: nat,
    showResults: bool,
    formData: FormState,
    prediction: Prediction)

  const InitialSession: SessionState := SessionState(0, false, InitialForm, InitialPrediction)

  /** `handleInputChange`: a checkbox stores `checked` under its flag, any other input stores `value`. */
  function InputChanged(f: FormState, target: Target): (r: FormState)
    ensures target.Checkbox? ==> FlagValue(r, target.flag) == target.checked && SameText(r, f) && r.symptoms == f.symptoms
    ensures target.Field? ==> TextValue(r, target.field) == target.value && SameFlags(r, f) && r.symptoms == f.symptoms
  {
    match target
    case Checkbox(flag, checked) => WithFlag(f, flag, checked)
    case Field(field, value) => WithText(f, field, value)
  }

  /** The effect of one event on the session. */
  function Step(s: SessionState, e: Event): (t: SessionState)
    ensures t.submissionCount == s.submissionCount + (if e.Submit? then 1 else 0)
    ensures e.Submit? ==> t.showResults && t.formData == s.formData
    ensures e.Submit? ==> (t.prediction.willShowUp <==> s.submissionCount % 2 == 0)
    ensures e.Submit? ==> 1 <= t.prediction.esiLevel <= 5
    ensures e.Reset? ==> !t.showResults && t.formData == InitialForm
    ensures !e.Submit? ==> t.prediction == s.prediction
    ensures !e.Submit? && !e.Reset? ==> t.showResults == s.showResults
  {
    match e
    case Submit =>
      s.(submissionCount := s.submissionCount + 1,
         prediction := Predict(s.formData, s.submissionCount),
         showResults := true)
    case Reset =>
      s.(formData := InitialForm, showResults := false)
    case InputChange(target) =>
      s.(formData := InputChanged(s.formData, target))
    case SymptomChange(symptom, checked) =>
      s.(formData := WithSymptom(s.formData, symptom, checked))
    case SelectChange(field, value) =>
      s.(formData := WithText(s.formData, field, value))
  }

  /** The session after the events `es`, applied in order. */
  function Run(s: SessionState, es: seq<Event>): SessionState
    decreases |es|
  {
    if es == [] then s else Step(Run(s, es[..|es| - 1]), es[|es| - 1])
  }

  /** How many of the events are submissions. */
  function Submissions(es: seq<Event>): (n: nat)
    ensures n <= |es|
    decreases |es|
  {
    if es == [] then 0 else Submissions(es[..|es| - 1]) + (if es[|es| - 1].Submit? then 1 else 0)
  }

  /**
   * What holds of every reachable session: the result view is only shown
   * after a submission; until the first submission the prediction is the
   * initial one; afterwards it holds a level on the 1-5 scale and the
   * show-up outcome of the latest submission, which is "shows up" exactly
   * when that submission's counter value before the increment was even.
   */
  ghost predicate Consistent(s: SessionState) {
    (s.showResults ==> s.submissionCount > 0) &&
    (s.submissionCount == 0 ==> s.prediction == InitialPrediction) &&
    (s.submissionCount > 0 ==>
      1 <= s.prediction.esiLevel <= 5 &&
      (s.prediction.willShowUp <==> (s.submissionCount - 1) % 2 == 0))
  }

  lemma {:induction false} StepConsistent(s: SessionState, e: Event)
    requires Consistent(s)
    ensures Consistent(Step(s, e))
  {
  }

  /** Every session reached from the initial one is consistent. */
  lemma {:induction false} RunConsistent(es: seq<Event>)
    ensures Consistent(Run(InitialSession, es))
    decreases |es|
  {
    if es != [] {
      RunConsistent(es[..|es| - 1]);
      StepConsistent(Run(InitialSession, es[..|es| - 1]), es[|es| - 1]);
    }
  }

  /** The counter counts the submissions, and nothing else moves it (a reset included). */
  lemma {:induction false} RunSubmissionCount(s: SessionState, es: seq<Event>)
    ensures Run(s, es).submissionCount == s.submissionCount + Submissions(es)
    decreases |es|
  {
    if es != [] {
      RunSubmissionCount(s, es[..|es| - 1]);
    }
  }

  /**
   * The k-th submission of a session predicts "shows up" exactly when k is
   * odd, whatever the form holds: true, false, true, ...
   */
  lemma {:induction false} ShowUpAlternates(es: seq<Event>)
    requires es != [] && es[|es| - 1] == Submit
    ensures Run(InitialSession, es).showResults
    ensures Run(InitialSession, es).prediction.willShowUp <==> Submissions(es) % 2 == 1
  {
    var init := es[..|es| - 1];
    var n := Submissions(init);
    RunSubmissionCount(InitialSession, init);
    var before := Run(InitialSession, init);
    assert before.submissionCount == n;
    assert Run(InitialSession, es) == Step(before, Submit);
    assert Run(InitialSession, es).prediction.willShowUp <==> n % 2 == 0;
    assert Submissions(es) == n + 1;
    NextParity(n, Submissions(es));
  }

  lemma NextParity(n: nat, m: nat)
    requires m == n + 1
    ensures n % 2 == 0 <==> m % 2 == 1
  {
  }

  /**
   * The level a submission shows is the level of the form as it stood at
   * that moment, and no earlier event but the edits of the form matters.
   */
  lemma {:induction false} SubmittedLevel(es: seq<Event>)
    requires es != [] && es[|es| - 1] == Submit
    ensures Run(InitialSession, es).prediction.esiLevel
         == EsiLevel(TotalSelections(Run(InitialSession, es[..|es| - 1]).formData))
  {
  }

  /** Until the first submission the result record is the initial one, which has no colour class. */
  lemma {:induction false} NoPredictionBeforeSubmit(es: seq<Event>)
    requires Submissions(es) == 0
    ensures Run(InitialSession, es).prediction == InitialPrediction
    ensures !Run(InitialSession, es).showResults
    ensures EsiColor(Run(InitialSession, es).prediction.esiLevel) == ""
  {
    RunConsistent(es);
    RunSubmissionCount(InitialSession, es);
  }

  /** Whenever the result view is shown, its level has a colour class. */
  lemma {:induction false} ResultViewHasColour(es: seq<Event>)
    requires Run(InitialSession, es).showResults
    ensures EsiColor(Run(InitialSession, es).prediction.esiLevel) != ""
  {
    RunConsistent(es);
  }

  /** A reset restores every field's default, keeps the counter and the stale prediction, and is idempotent. */
  lemma {:induction false} ResetRestoresDefaults(s: SessionState)
    ensures IsDefault(Step(s, Reset).formData)
    ensures Step(s, Reset).submissionCount == s.submissionCount
    ensures Step(s, Reset).prediction == s.prediction
    ensures Step(Step(s, Reset), Reset) == Step(s, Reset)
  {
    IsDefaultIff(InitialForm);
  }

  /** Submitting straight after a reset always yields level 1. */
  lemma {:induction false} SubmitAfterResetIsLevelOne(s: SessionState)
    ensures Step(Step(s, Reset), Submit).prediction.esiLevel == 1
  {
    IsDefaultIff(InitialForm);
    NothingCheckedIsLevelOne(InitialForm);
  }

  /** A first submission of an untouched form: shows up, level 1. */
  lemma {:induction false} FirstSubmissionOfEmptyForm()
    ensures Run(InitialSession, [Submit]).prediction == Prediction(true, 1)
  {
    assert [Submit][..0] == [];
    IsDefaultIff(InitialForm);
    NothingCheckedIsLevelOne(InitialForm);
  }

  /** Ticking a condition box moves the total by one when it was unticked, and not at all otherwise. */
  lemma {:induction false} CheckingConditionAddsOne(s: SessionState, c: Flag)
    requires c != SmsReceived
    ensures TotalSelections(Step(s, InputChange(Checkbox(c, true))).formData)
         == TotalSelections(s.formData) + (if FlagValue(s.formData, c) then 0 else 1)
  {
    ConditionCountWithFlag(s.formData, c, true);
  }

  /** Ticking `smsReceived` never changes the total. */
  lemma {:induction false} SmsDoesNotCount(s: SessionState, checked: bool)
    ensures TotalSelections(Step(s, InputChange(Checkbox(SmsReceived, checked))).formData)
         == TotalSelections(s.formData)
  {
    ConditionCountIgnoresSms(s.formData, checked);
  }

  /** Ticking a symptom box moves the total by one when it was unticked, and not at all otherwise. */
  lemma {:induction false} CheckingSymptomAddsOne(s: SessionState, symptom: Symptom)
    ensures TotalSelections(Step(s, SymptomChange(symptom, true)).formData)
         == TotalSelections(s.formData) + (if SymptomValue(s.formData.symptoms, symptom) then 0 else 1)
  {
    ConditionCountIgnoresSymptoms(s.formData, symptom, true);
    SymptomCountWith(s.formData.symptoms, symptom, true);
  }

  /** Editing a string field never changes the total. */
  lemma {:induction false} TextDoesNotCount(s: SessionState, field: TextField, value: string)
    ensures TotalSelections(Step(s, SelectChange(field, value)).formData) == TotalSelections(s.formData)
    ensures TotalSelections(Step(s, InputChange(Field(field, value))).formData) == TotalSelections(s.formData)
  {
    var f := s.formData;
    assert Step(s, SelectChange(field, value)).formData == WithText(f, field, value);
    assert Step(s, InputChange(Field(field, value))).formData == WithText(f, field, value);
    ConditionCountIgnoresText(f, field, value);
  }

  // ---------------------------------------------------------------------------
  // Which events the page offers. The handlers themselves accept any call;
  // the page renders the form (submit button and every input) only while the
  // results are hidden, and the result view offers only "Make Another
  // Prediction", which resets. The form view has a reset button as well.

  /** The events the page offers in the view `s` shows. */
  predicate Enabled(s: SessionState, e: Event) {
    !s.showResults || e.Reset?
  }

  /** Every event of `es` is offered by the view it is applied in. */
  predicate EnabledRun(s: SessionState, es: seq<Event>)
    decreases |es|
  {
    es == [] || (EnabledRun(s, es[..|es| - 1]) && Enabled(Run(s, es[..|es| - 1]), es[|es| - 1]))
  }

  /** In an enabled run, the event at position `j` is offered by the view reached after the first `j` events. */
  lemma {:induction false} EnabledRunAt(s: SessionState, es: seq<Event>, j: nat)
    requires EnabledRun(s, es) && j < |es|
    ensures Enabled(Run(s, es[..j]), es[j])
    decreases |es|
  {
    if j < |es| - 1 {
      var init := es[..|es| - 1];
      assert init[..j] == es[..j];
      EnabledRunAt(s, init, j);
    }
  }

  /** After a submission, the result view stays up until a reset. */
  lemma {:induction false} ResultsShownUntilReset(es: seq<Event>, i: nat, m: nat)
    requires i < m <= |es| && es[i] == Submit
    requires forall k :: i < k < m ==> es[k] != Reset
    ensures Run(InitialSession, es[..m]).showResults
    decreases m
  {
    var prefix := es[..m];
    assert prefix[..m - 1] == es[..m - 1];
    if m - 1 > i {
      ResultsShownUntilReset(es, i, m - 1);
    }
  }

  /**
   * On the page, two submissions are always separated by a reset: once the
   * results are shown, "Make Another Prediction" is the only way back to the
   * form and its submit button.
   */
  lemma {:induction false} SubmissionsSeparatedByReset(es: seq<Event>, i: nat, j: nat)
    requires EnabledRun(InitialSession, es)
    requires i < j < |es| && es[i] == Submit && es[j] == Submit
    ensures exists k :: i < k < j && es[k] == Reset
  {
    if forall k :: i < k < j ==> es[k] != Reset {
      ResultsShownUntilReset(es, i, j);
      EnabledRunAt(InitialSession, es, j);
      assert false;
    }
  }

  /**
   * The computation inside `handleSubmit`: count the checked conditions and
   * symptoms, take the show-up outcome from the counter value before the
   * increment, and walk the threshold chain from the top. The chain is the
   * one `EsiLevel` also spells out; what makes the equality with `Predict`
   * informative is `EsiLevel`'s closed form (one level per two selections,
   * capped at 5) and the threshold lemmas, which the chain written here is
   * thereby shown to meet.
   */
  method ComputePrediction(formData: FormState, countBefore: nat) returns (p: Prediction)
    ensures p == Predict(formData, countBefore)
  {
    var conditionCount := ConditionCount(formData);
    var symptomCount := SymptomCount(formData.symptoms);
    var totalSelections := conditionCount + symptomCount;

    var willShowUp := countBefore % 2 == 0;

    var esiLevel: int;
    if totalSelections >= 8 {
      esiLevel := 5;
    } else if totalSelections >= 6 {
      esiLevel := 4;
    } else if totalSelections >= 4 {
      esiLevel := 3;
    } else if totalSelections >= 2 {
      esiLevel := 2;
    } else {
      esiLevel := 1;
    }

    p := Prediction(willShowUp, esiLevel);
  }

  /** The page component: its four pieces of state and its handlers. */
  class HealthPredictionApp {
    var submissionCount: nat
    var showResults: bool
    var formData: FormState
    var prediction: Prediction

    function State(): SessionState
      reads this
    {
      SessionState(submissionCount, showResults, formData, prediction)
    }

    ghost predicate Valid()
      reads this
    {
      Consistent(State())
    }

    /** The initial `useState` values. */
    constructor ()
      ensures Valid() && State() == InitialSession
    {
      submissionCount := 0;
      showResults := false;
      formData := InitialForm;
      prediction := InitialPrediction;
    }

    method HandleInputChange(target: Target)
      requires Valid()
      modifies this
      ensures Valid() && State() == Step(old(State()), InputChange(target))
    {
      ghost var before := State();
      match target {
        case Checkbox(flag, checked) =>
          formData := WithFlag(formData, flag, checked);
        case Field(field, value) =>
          formData := WithText(formData, field, value);
      }
      StepConsistent(before, InputChange(target));
      assert State() == Step(before, InputChange(target));
    }

    method HandleSymptomChange(symptom: Symptom, checked: bool)
      requires Valid()
      modifies this
      ensures Valid() && State() == Step(old(State()), SymptomChange(symptom, checked))
    {
      ghost var before := State();
      formData := WithSymptom(formData, symptom, checked);
      StepConsistent(before, SymptomChange(symptom, checked));
      assert State() == Step(before, SymptomChange(symptom, checked));
    }

    method HandleSelectChange(field: TextField, value: string)
      requires Valid()
      modifies this
      ensures Valid() && State() == Step(old(State()), SelectChange(field, value))
    {
      ghost var before := State();
      formData := WithText(formData, field, value);
      StepConsistent(before, SelectChange(field, value));
      assert State() == Step(before, SelectChange(field, value));
    }

    /** `handleSubmit`: the show-up outcome reads the counter as it was before the increment. */
    method HandleSubmit()
      requires Valid()
      modifies this
      ensures Valid() && State() == Step(old(State()), Submit)
    {
      ghost var before := State();
      var countBefore := submissionCount;
      submissionCount := submissionCount + 1;
      var result := ComputePrediction(formData, countBefore);
      prediction := result;
      showResults := true;
      StepConsistent(before, Submit);
      assert State() == Step(before, Submit);
    }

    /** `resetForm`: the counter and the last prediction are left as they are. */
    method ResetForm()
      requires Valid()
      modifies this
      ensures Valid() && State() == Step(old(State()), Reset)
    {
      ghost var before := State();
      formData := InitialForm;
      showResults := false;
      StepConsistent(before, Reset);
      assert State() == Step(before, Reset);
    }
  }
}
