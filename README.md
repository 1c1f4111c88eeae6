# Sahhty Flow health prediction: form and prediction state machine

The application is a single React page, `HealthPredictionApp`. A patient fills in a form, submits it, and gets two results:

- an appointment "show-up" outcome, which alternates from one submission to the next;
- an "ESI" (Emergency Severity Index) level from 1 to 5, bucketed from the number of ticked conditions and symptoms.

The page keeps four pieces of state:

- `submissionCount`, a counter;
- `showResults`, which says whether the form view or the result view is shown;
- `formData`, a record with six string fields, ten top-level boolean flags and a nested record of seven symptom flags;
- `prediction`, the last computed pair.

Five handlers change this state: `handleInputChange`, `handleSymptomChange`, `handleSelectChange`, `handleSubmit` and `resetForm`. The helper `getEsiColor` maps a level to the CSS classes of the result badge.

The Dafny project has four modules:

- `Counting` (`counting.dfy`): the count of `true` values in a sequence of booleans, i.e. the `filter(...).length` idiom.
- `Form` and `FormCounts` (`form.dfy`): the form record and its initial value. It also holds the single-field updates the change handlers perform, and the two counts. The condition count is modelled the way the source computes it. `Entries` builds the list `Object.entries(formData)` returns. `FilterCounted` applies the `typeof value === "boolean" && value === true && key !== "smsReceived"` filter to that list. The length of the result is proved equal to the number of ticked conditions.
- `Prediction` (`prediction.dfy`): the total, the ESI threshold chain, the prediction for a form snapshot, and the colour lookup.
- `Session` (`session.dfy`): the session as a value (`SessionState`), the effect of each event (`Step`) and of a sequence of events (`Run`). It also has the class `HealthPredictionApp`, whose fields are the four pieces of state. Each of its handler methods is proved to perform exactly the corresponding `Step` and to preserve the session invariant `Consistent`.

## Model

| member | source | states |
|---|---|---|
| Counting.CountTrue | app/page.tsx:90-94 | the number of `true` values is at most the length; it is 0 only if no value is true and equals the length only if no value is false |
| Counting.CountTrueAppend | app/page.tsx:90-94 | counting distributes over concatenation |
| Counting.CountTrueZeroIff | app/page.tsx:90-94 | the count is zero exactly when no value is `true` |
| Counting.CountTrueFullIff | app/page.tsx:90-94 | the count equals the length exactly when every value is `true` |
| Counting.CountTrueUpdate | app/page.tsx:90-94 | replacing one value changes the count by the difference of the old and new indicators |
| Form.ConditionIndex | app/page.tsx:20-28 | each of the nine condition flags (every flag but `smsReceived`) has a position in the condition list, holding that flag |
| Form.SymptomIndex | app/page.tsx:35-43 | each of the seven symptoms has a position in the symptom list, holding that symptom |
| Form.ConditionsEnumerate | app/page.tsx:20-29 | a flag is a condition exactly when it is not `smsReceived` |
| Form.ConditionIndexOf | app/page.tsx:20-28 | the position function inverts indexing, so no condition is listed twice and `smsReceived` is not listed |
| Form.SymptomIndexOf | app/page.tsx:35-43 | the symptom position function inverts indexing, so no symptom is listed twice |
| Form.IsDefaultIff | app/page.tsx:18-44 | a record has every flag off, every string empty and every symptom off exactly when it is the initial `formData` |
| Form.SameFlagsConditionValues | app/page.tsx:90-92 | two records that agree on the ten flags have the same condition values, whatever their strings and symptoms |
| Form.SameFlagsFlagValue | app/page.tsx:19-29 | records that agree on the ten flags give the same value for each flag |
| Form.WithFlag | app/page.tsx:53-57 | a checkbox change stores `checked` under its flag and leaves every string and the symptoms unchanged |
| Form.WithFlagFrame | app/page.tsx:53-57 | a checkbox change leaves every other flag unchanged |
| Form.WithText | app/page.tsx:58-63 | a non-checkbox change stores `value` under its field and leaves every flag and the symptoms unchanged |
| Form.WithTextFrame | app/page.tsx:58-63 | a non-checkbox change leaves every other string field unchanged |
| Form.SymptomsWith | app/page.tsx:69-72 | the named symptom becomes `checked` |
| Form.SymptomsWithFrame | app/page.tsx:69-72 | every other symptom is unchanged |
| Form.WithSymptom | app/page.tsx:66-74 | a symptom change sets that symptom and leaves every top-level flag and string unchanged |
| Form.FlagKeyExcluded | app/page.tsx:90-92 | the key filter `key !== "smsReceived"` excludes exactly the `smsReceived` flag |
| Form.Entries | app/page.tsx:90 | `Object.entries(formData)` yields the seventeen top-level fields |
| Form.FlagEntries | app/page.tsx:90 | the ten flag entries, one per flag |
| Form.FilterCounted | app/page.tsx:90-92 | the filtered entries come from the input, each is a `true` boolean not keyed `smsReceived`, and there are no more of them than inputs |
| Form.CountedMask | app/page.tsx:91 | one verdict of the filter closure (`Counted`: a boolean, `true`, not keyed `smsReceived`) per entry |
| Form.FilterCountedLength | app/page.tsx:90-92 | the length of the filtered list is the number of entries the filter accepts |
| Form.ConditionValues | app/page.tsx:20-28 | one value per condition flag |
| Form.SymptomValues | app/page.tsx:94 | `Object.values(formData.symptoms)`: one value per symptom |
| Form.CountedMaskOfEntries | app/page.tsx:90-92 | the filter rejects `age`, `gender`, `smsReceived`, the four trailing strings and the nested `symptoms` object, and accepts a condition exactly when it is ticked |
| Form.CountedMaskAppend | app/page.tsx:90-92 | filter verdicts distribute over concatenation |
| Form.FlagEntriesMask | app/page.tsx:90-92 | among the flag entries, the filter accepts exactly the ticked conditions and never `smsReceived` |
| Form.ConditionCount | app/page.tsx:90-92 | the length of the filtered `Object.entries` equals the number of ticked conditions, hence at most 9 |
| Form.SymptomCount | app/page.tsx:94 | the symptom count is at most 7 |
| FormCounts.ConditionValueAt | app/page.tsx:90-92 | the condition value at a flag's position is that flag's value |
| FormCounts.SymptomValueAt | app/page.tsx:94 | the symptom value at a symptom's position is that symptom's value |
| FormCounts.ConditionValueWithFlagAt | app/page.tsx:53-57 | after a checkbox change, the condition values differ only at that flag's position |
| FormCounts.ConditionValuesWithFlag | app/page.tsx:53-57 | a checkbox change on a condition updates exactly one condition value |
| FormCounts.SymptomValueWithAt | app/page.tsx:66-74 | after a symptom change, the symptom values differ only at that symptom's position |
| FormCounts.SymptomValuesWith | app/page.tsx:66-74 | a symptom change updates exactly one symptom value |
| FormCounts.ConditionCountWithFlag | app/page.tsx:53-57 | a checkbox change on a condition moves the condition count by the change in that flag's indicator |
| FormCounts.ConditionCountIgnoresSms | app/page.tsx:92 | ticking or unticking `smsReceived` never changes the condition count |
| FormCounts.ConditionCountIgnoresText | app/page.tsx:90-92 | editing a string field never changes the condition count (`typeof value === "boolean"`) |
| FormCounts.ConditionCountIgnoresSymptoms | app/page.tsx:90-92 | the nested `symptoms` object never contributes to the condition count |
| FormCounts.ConditionCountZeroIff | app/page.tsx:90-92 | the condition count is 0 exactly when no condition is ticked |
| FormCounts.ConditionCountFullIff | app/page.tsx:90-92 | the condition count is 9 exactly when every condition is ticked |
| FormCounts.SymptomCountWith | app/page.tsx:94 | a symptom change moves the symptom count by the change in that symptom's indicator |
| FormCounts.SymptomCountZeroIff | app/page.tsx:94 | the symptom count is 0 exactly when no symptom is ticked |
| FormCounts.SymptomCountFullIff | app/page.tsx:94 | the symptom count is 7 exactly when every symptom is ticked, with no exclusions |
| Prediction.TotalSelections | app/page.tsx:96 | the total is at most 9 + 7 = 16 |
| Prediction.EsiLevel | app/page.tsx:104-109 | the level is on the 1-5 scale and, for any total that can occur, is one level per two selections capped at 5: 2(level-1) <= total, and total < 2·level unless the level is 5 (that is, min(5, total / 2 + 1)) |
| Prediction.EsiLevelThreshold | app/page.tsx:104-109 | level k or higher (k = 2..5) is reached exactly from the threshold 2(k-1) upward |
| Prediction.EsiLevelMonotone | app/page.tsx:104-109 | more selections never give a lower level |
| Prediction.Predict | app/page.tsx:96-113 | the show-up outcome is "counter before the increment is even", and the level is on the 1-5 scale |
| Prediction.PredictLevelIgnoresCounter | app/page.tsx:100-109 | the level does not depend on the counter; two counters give the same show-up outcome exactly when they have the same parity |
| Prediction.PredictShowUpIgnoresForm | app/page.tsx:100 | the show-up outcome does not depend on the form |
| Prediction.PredictShowUpAlternates | app/page.tsx:100 | successive counter values give opposite show-up outcomes |
| Prediction.NothingCheckedIsLevelOne | app/page.tsx:90-109 | with nothing ticked, the total is 0 and a first submission predicts "shows up", level 1 |
| Prediction.TotalSelectionsZeroIff | app/page.tsx:90-96 | the total is 0 exactly when no condition and no symptom is ticked, whatever `smsReceived` holds |
| Prediction.EverythingCheckedIsSixteen | app/page.tsx:90-109 | with every condition and symptom ticked, the total is 16 and the level is 5 |
| Prediction.EsiColor | app/page.tsx:119-134 | a class string is returned exactly for levels 1-5, and `""` for any other level |
| Prediction.EsiColorDistinct | app/page.tsx:119-134 | distinct levels on the scale get distinct class strings |
| Session.InputChanged | app/page.tsx:50-64 | a checkbox target stores `checked` under its flag and leaves strings and symptoms alone; any other target stores `value` under its field and leaves flags and symptoms alone |
| Session.Step | app/page.tsx:50-165 | only a submission moves the counter, by exactly 1. A submission shows the results, keeps the form, and sets a level on the 1-5 scale and the show-up outcome from the pre-increment counter parity. A reset shows the form and restores the initial record. No event but a submission touches the prediction, and the change handlers keep the view |
| Session.Submissions | app/page.tsx:87 | the number of submissions is at most the number of events |
| Session.StepConsistent | app/page.tsx:83-165 | every handler preserves the session invariant (results shown only after a submission; initial prediction until the first; afterwards a level on the scale and the latest show-up outcome) |
| Session.RunConsistent | app/page.tsx:15-165 | every session reached from the initial state satisfies the invariant |
| Session.RunSubmissionCount | app/page.tsx:87 | the counter equals the number of submissions, whatever else happened (resets included) |
| Session.ShowUpAlternates | app/page.tsx:87-100 | the k-th submission shows the results and predicts "shows up" exactly when k is odd: true, false, true, ..., independent of the form |
| Session.SubmittedLevel | app/page.tsx:96-113 | the level shown is the level of the form as it stood at that submission |
| Session.NoPredictionBeforeSubmit | app/page.tsx:45-48 | before any submission the prediction is the initial one (level 0), the form view is shown, and the level has no colour class |
| Session.ResultViewHasColour | app/page.tsx:116-134 | whenever the result view is shown, its level has a non-empty colour class |
| Session.ResetRestoresDefaults | app/page.tsx:136-165 | a reset leaves every field at its default, keeps the counter and the stale prediction, and a second reset changes nothing |
| Session.SubmitAfterResetIsLevelOne | app/page.tsx:104-109 | submitting straight after a reset always gives level 1 |
| Session.FirstSubmissionOfEmptyForm | app/page.tsx:15-117 | the first submission of the untouched form predicts "shows up", level 1 |
| Session.CheckingConditionAddsOne | app/page.tsx:53-57 | ticking a condition box raises the total by one when it was unticked, and leaves it unchanged otherwise |
| Session.SmsDoesNotCount | app/page.tsx:92 | ticking or unticking `smsReceived` never changes the total |
| Session.CheckingSymptomAddsOne | app/page.tsx:66-74 | ticking a symptom raises the total by one when it was unticked, and leaves it unchanged otherwise |
| Session.TextDoesNotCount | app/page.tsx:58-63 | editing a string field, by input or by select, never changes the total |
| Session.EnabledRunAt | app/page.tsx:191-192 | in a run the page can produce, each event is one the view reached before it offers |
| Session.ResultsShownUntilReset | app/page.tsx:116 | after a submission the result view stays up until the next reset |
| Session.SubmissionsSeparatedByReset | app/page.tsx:330-357 | in a run the page can produce, any two submissions have a reset between them: the result view offers only "Make Another Prediction", and the submit button lives in the form |
| Session.ComputePrediction | app/page.tsx:90-109 | the counts, the parity test and the threshold chain inside `handleSubmit` compute exactly `Predict` of the form and the pre-increment counter |
| Session.HealthPredictionApp.constructor | app/page.tsx:15-48 | the initial `useState` values form the initial session, which satisfies the invariant |
| Session.HealthPredictionApp.HandleInputChange | app/page.tsx:50-64 | performs the input-change step and keeps the invariant |
| Session.HealthPredictionApp.HandleSymptomChange | app/page.tsx:66-74 | performs the symptom-change step and keeps the invariant |
| Session.HealthPredictionApp.HandleSelectChange | app/page.tsx:76-81 | performs the select-change step and keeps the invariant |
| Session.HealthPredictionApp.HandleSubmit | app/page.tsx:83-117 | performs the submission step (counter +1, prediction from the pre-increment counter, results shown) and keeps the invariant |
| Session.HealthPredictionApp.ResetForm | app/page.tsx:136-165 | performs the reset step (initial record, form view, counter and prediction kept) and keeps the invariant |

## Left out

- Rendering: the JSX, the Tailwind classes outside `getEsiColor`, and the imported UI components and icons. They are presentation only, and their code is not part of this model.
- `activeTab` and tab switching. These are UI navigation with no effect on the prediction.
- The browser's `required` validation of age and gender. A submission from the form view is modelled as always possible.
- React's batched and asynchronous `setState`. Each handler is one atomic step on the current state. The one consequence of the closure that matters is modelled: `willShowUp` reads the counter before the increment.
- `e.preventDefault()` and the DOM event objects. A change event is reduced to the fields the handler reads, in the `Target` datatype.
- Target combinations the page never produces. A checkbox event never names a string field, and a text value is never stored under a flag. Either would change the type of a field in JavaScript, so the model allows a checkbox only on a flag and a text value only on a string field. Two events the model still accepts have no control on the page: `otherConditions` has no input at all, yet `InputChange(Field(OtherConditions, _))` is accepted, and `handleSelectChange` is only ever called with `gender`, yet `SelectChange` takes any string field.
- Checkbox values other than booleans, such as an indeterminate widget state. Every flag is a `bool`.
- Parsing of `age` and `waitingDays`, and the contents of the free-text fields. They are never interpreted, so they are opaque strings.
- Session.Step: the handlers, and the methods of `HealthPredictionApp` that model them, accept every event in either view, as the handler code itself does. The page offers submit and edits only in the form view and only reset in the result view. That restriction is stated separately as `Enabled` and `EnabledRun`, and `SubmissionsSeparatedByReset` proves its consequence. The other lemmas about `Run` hold for every trace, including the ones the page cannot produce.
- Session.HealthPredictionApp.HandleSubmit: the counter is an unbounded natural number. JavaScript's number precision above 2^53 is not modelled.
- Prediction.EsiColor: the contract states which levels get a class and that distinct levels get distinct classes, not the literal class strings.
