# Patient registration form: a verified model

This project models the controller behind the "Register New Patient" dialog of a
small clinic application (`src/components/patients-form.tsx`). The dialog collects
fifteen values over four tabs (personal, contact, insurance, medical) and saves
them as one row of the `patients` table. The model covers:

- the schema: one validation rule and one message per field, plus the default values;
- the tab state machine. A Next button checks the fields of its own tab and moves
  on only when they all pass. Previous buttons and tab headers move without
  checking anything;
- the submit path. Full validation runs first. On failure, a router picks the tab
  to show from the first failing field. On success, the fifteen insert values are
  built in column order. The database's answer then closes the dialog or keeps
  it open.

Modules:

- `Schema` (`schema.dfy`): fields, rules, messages, the draft record, defaults,
  per-field validation, the error map, and the first failing field in
  declaration order.
- `Tabs` (`tabs.dfy`): the tab order, the fields each Next button checks, the tab
  that shows each field, and the submit-failure router.
- `Submission` (`submission.dfy`): the INSERT's column list and its fifteen bound
  values.
- `RegistrationForm` (`registration_form.dfy`): the class `AddPatientForm`. Its
  fields are `open`, `activeTab`, `draft` and the messages on display, and it has
  one method per user action.
- `Scenarios` (`scenarios.dfy`): end-to-end runs. Each creates a form, types in a
  registration and presses the buttons.

The email-syntax check and the runtime's date-to-text conversion are library
code. They enter the model as the function parameters `isEmail` and
`dateString`. The database is reduced to the boolean `persistOk` handed to
`Submit`.

Points where the code's behaviour is easy to misread:

- The default of the medical history is the empty string, not "absent". A draft
  reached through the dialog therefore always carries a string there (the
  invariant `AddPatientForm.Valid`). The `?? '1'` fallback of the insert cannot
  fire through the form: the untouched field is stored as `""`. The fallback is
  still modelled, and proved to apply only to a missing value.
- Closing the dialog resets nothing. The active tab and the typed values live
  outside the dialog, so reopening shows the tab and the values it was closed
  with. A successful save does not reset the draft either.
- The two emergency-contact inputs sit on the insurance tab, but the submit
  router sends their failures to the medical tab. The model reproduces this.
  `Tabs.RouteMatchesRenderingExceptEmergencyContact` and
  `Scenarios.InsuranceOnlyFailureRouting` pin it down.
- The router takes the first key of the validation error object. The model takes
  that to be the first failing field in schema-declaration order
  (`Schema.FirstError`).

## Model

| member | source | states |
|---|---|---|
| Schema.RuleOf | src/components/patients-form.tsx:31-46 | computes the rule the schema declares for each field (minimum 2, 5 or 10 characters, email, required date, required string, optional string); tied to the verdicts by `Schema.FieldOkFollowsRule` |
| Schema.Message | src/components/patients-form.tsx:32-45 | computes the message the schema attaches to each required field's rule, word for word; reported by `Schema.ErrorsReportFailures` |
| Schema.FieldOk | src/components/patients-form.tsx:31-46 | computes whether one field of a draft passes, read off the draft field by field; checked against the declared rule by `Schema.FieldOkFollowsRule`, and against the default values of lines 53-67 (`Schema.Defaults`) by `Schema.DefaultsFailEveryRequiredField` |
| Schema.Errors | src/components/patients-form.tsx:134-255 | computes the messages that validating a set of fields produces, as the Next buttons' checks (255, 359, 438) and the submit handler (134) receive them; pinned by `Schema.ErrorsReportFailures`, `Schema.OnlyFailureReported` and `Schema.ErrorsOfUnion` |
| Schema.Rank | src/components/patients-form.tsx:31-46 | the position it gives a field is where that field sits in the schema's declaration order |
| Schema.FieldOkFollowsRule | src/components/patients-form.tsx:31-46 | a field passes exactly when its value satisfies the rule the schema declares for it: a minimum length of 2, 5 or 10, a valid email, a present date, a present gender, or, for the medical history, anything but a date |
| Schema.OptionalFieldNeverFails | src/components/patients-form.tsx:46 | the optional medical history never fails validation |
| Schema.FieldOkIsLocal | src/components/patients-form.tsx:31-46 | a field's verdict depends on that field's value only |
| Schema.Set | src/components/patients-form.tsx:162-462 | typing into one input changes that field and leaves every other field as it was |
| Schema.SetOverwrites | src/components/patients-form.tsx:162-462 | typing into a field twice keeps only the last value, and re-entering the current value changes nothing |
| Schema.ErrorsReportFailures | src/components/patients-form.tsx:31-46 | validating a set of fields reports exactly its failing fields, each with the message its rule declares, never the optional field; no messages means every named field passes |
| Schema.OnlyFailureReported | src/components/patients-form.tsx:31-46 | when exactly one named field fails, validation reports that field alone, with its message |
| Schema.ErrorsOnlyReadNamedFields | src/components/patients-form.tsx:255 | validating some fields ignores the values of all other fields |
| Schema.ErrorsOfUnion | src/components/patients-form.tsx:31-46 | validating two sets of fields together gives the union of validating them apart |
| Schema.FirstFailing | src/components/patients-form.tsx:135 | the index found is that of a failing field, and every field before it passes; when no field fails, it is the length |
| Schema.FirstError | src/components/patients-form.tsx:134-136 | there is a first error exactly when full validation fails, and it names a failing field |
| Schema.FirstErrorIsFirst | src/components/patients-form.tsx:134-136 | no failing field is declared before the first error |
| Schema.DefaultsFailEveryRequiredField | src/components/patients-form.tsx:53-67 | on the default values (`Schema.Defaults`, lines 53-67) every field except the medical history fails (the email check rejects the empty string) |
| Schema.DefaultsFirstError | src/components/patients-form.tsx:53-67 | on the default values the first failing field is the first name |
| Tabs.Forward | src/components/patients-form.tsx:258-439 | a Next step (lines 258, 360, 439) goes one place along personal, contact, insurance, medical; the medical tab has no Next button and stays |
| Tabs.Backward | src/components/patients-form.tsx:355-471 | a Previous step (lines 355, 434, 471) goes one place back; the personal tab has no Previous button and stays |
| Tabs.StepsAreInverse | src/components/patients-form.tsx:355-360 | Previous undoes Next and Next undoes Previous wherever both buttons exist |
| Tabs.GateIsWhatTheTabShows | src/components/patients-form.tsx:254-259 | each Next button checks exactly the fields whose inputs its own tab shows, and the medical tab checks none |
| Tabs.GatesPartitionRequiredFields | src/components/patients-form.tsx:254-440 | the three Next buttons together check every required field, each exactly once |
| Tabs.PassesAllIffEveryGate | src/components/patients-form.tsx:254-440 | a draft passes full validation exactly when it passes all three Next buttons |
| Tabs.Gate | src/components/patients-form.tsx:255-438 | computes the field list each Next button checks (lines 255, 359, 438), none on the medical tab; pinned by `Tabs.GateIsWhatTheTabShows` and `Tabs.GatesPartitionRequiredFields` |
| Tabs.RenderedOn | src/components/patients-form.tsx:162-462 | computes the tab whose panel holds each field's input; used as the reference for `Tabs.GateIsWhatTheTabShows` and `Tabs.RouteMatchesRenderingExceptEmergencyContact` |
| Tabs.RouteTab | src/components/patients-form.tsx:139-147 | computes the submit-failure router: insurance provider and number to insurance, the six contact fields to contact, the emergency contact and medical history to medical, everything else to personal; pinned by `Tabs.RouteMatchesRenderingExceptEmergencyContact` and `Tabs.SubmitRoutesToFirstBlockedTab` |
| Tabs.RouteOnError | src/components/patients-form.tsx:135-136 | with no failing field the active tab is left as it was |
| Tabs.RouteMatchesRenderingExceptEmergencyContact | src/components/patients-form.tsx:139-147 | the router sends every field to the tab that shows it, except the two emergency-contact fields, which are shown on insurance but routed to medical |
| Tabs.DeclarationFollowsTabs | src/components/patients-form.tsx:162-462 | every field shown on an earlier tab is declared earlier in the schema |
| Tabs.EarlierTabsPass | src/components/patients-form.tsx:134-147 | every field shown on a tab before the first failing field's tab passes |
| Tabs.SubmitRoutesToFirstBlockedTab | src/components/patients-form.tsx:134-147 | a failed submit shows the first tab whose Next button would refuse the draft, with earlier tabs all passing; the exception is an emergency-contact failure, which shows the medical tab while personal, contact and the insurance policy fields pass |
| Tabs.RoutedToShowingTab | src/components/patients-form.tsx:139-142 | when the first failure is routed to a tab other than medical, that tab's Next button refuses the draft and all earlier tabs pass |
| Tabs.RoutedToMedical | src/components/patients-form.tsx:143-144 | when the first failure is routed to medical, personal and contact pass, the insurance policy fields pass, and the insurance Next button refuses the draft |
| Submission.ColumnsMatchBindings | src/components/patients-form.tsx:89-110 | placeholder i binds the field whose key is column i of the statement's column list (`Submission.InsertColumns`, lines 90-92); all fifteen fields are bound, each once |
| Submission.ValidatedIsSubmittable | src/components/patients-form.tsx:34-35 | data that passed validation carries a date of birth and a gender |
| Submission.InsertParams | src/components/patients-form.tsx:94-110 | the insert carries one value per column |
| Submission.InsertParamsFollowBindOrder | src/components/patients-form.tsx:94-110 | each value is that of the field bound at its position: the text as typed, the date as rendered, the fallback only for a missing medical history |
| Submission.MedicalHistoryFallback | src/components/patients-form.tsx:109 | a present medical history, the empty string included, is stored as it is; a missing one becomes "1" |
| Submission.InsertKeepsEveryValue | src/components/patients-form.tsx:94-110 | two drafts that produce the same insert agree on every field, on the rendered date, and on the medical history whenever both have one |
| Submission.FallbackConflates | src/components/patients-form.tsx:109 | a missing medical history and the text "1" produce the same insert |
| RegistrationForm.AddPatientForm.Valid | src/components/patients-form.tsx:66 | the form's invariant: the medical history always holds a string, because its default (line 66) is "" and the textarea only delivers text; every method keeps it |
| RegistrationForm.AddPatientForm.constructor | src/components/patients-form.tsx:53-78 | a new form is closed, on the personal tab, holds the default values and shows no messages |
| RegistrationForm.AddPatientForm.Open | src/components/patients-form.tsx:121-123 | opening the dialog keeps the tab and the values it had when it was closed |
| RegistrationForm.AddPatientForm.Close | src/components/patients-form.tsx:121 | dismissing the dialog resets neither the tab nor the values |
| RegistrationForm.AddPatientForm.Edit | src/components/patients-form.tsx:162-462 | typing, which the open dialog alone allows, changes exactly one field of the draft; the tab, the dialog and the messages are untouched |
| RegistrationForm.AddPatientForm.SelectTab | src/components/patients-form.tsx:151 | in the open dialog a tab header switches to any tab without validating or touching the draft |
| RegistrationForm.AddPatientForm.Previous | src/components/patients-form.tsx:355-471 | Previous, offered on every tab but personal, moves one tab back without validating or touching the draft |
| RegistrationForm.AddPatientForm.Next | src/components/patients-form.tsx:254-440 | Next, offered on every tab but medical, checks its tab's fields only, succeeds exactly when they all pass, moves one tab on when it succeeds and stays otherwise, and refreshes the messages of those fields alone |
| RegistrationForm.AddPatientForm.ShowAllErrors | src/components/patients-form.tsx:134 | full validation replaces the shown messages with those of every failing field |
| RegistrationForm.AddPatientForm.Submit | src/components/patients-form.tsx:81-118 | the outcome follows the submit rule below; all messages are replaced by full validation; a rejection shows the routed tab; only a successful save closes the dialog; the draft is never reset; because of the invariant, an insert always stores the typed medical history, so the "1" fallback never fires |
| RegistrationForm.SubmitResultSpec | src/components/patients-form.tsx:111-117 | a submit reaches the database exactly when every field passes; a rejection names the failing field declared first; saved exactly when the database accepts; the insert is built from the validated draft, and a present medical history is stored unchanged |
| Scenarios.Example | src/components/patients-form.tsx:53-67 | the example registration has the given email and the untouched, empty medical history |
| Scenarios.ExampleMeetsEveryOtherRule | src/components/patients-form.tsx:31-46 | the example passes every rule but the email check, and passes in full exactly when its email is accepted |
| Scenarios.ExampleWithBadEmail | src/components/patients-form.tsx:134-142 | with a rejected email, that email is the first and only failure |
| Scenarios.FreshFormCannotLeavePersonal | src/components/patients-form.tsx:254-259 | on a fresh form, Next on the personal tab fails, stays on personal, and shows messages under exactly the four personal fields |
| Scenarios.WalkToMedical | src/components/patients-form.tsx:254-440 | for a draft that passes every rule, the three Next presses all succeed and end on the medical tab with the draft unchanged |
| Scenarios.WalkUntilEmail | src/components/patients-form.tsx:254-361 | for a draft failing only the email check, Next leaves the personal tab but not the contact tab |
| Scenarios.FreshDraftBlocksPersonal | src/components/patients-form.tsx:53-67 | the defaults fail every personal field, whatever the email check says |
| Scenarios.SubmitCompleteRegistration | src/components/patients-form.tsx:89-474 | typing a complete registration, passing all three Next buttons and submitting from the medical tab saves the fifteen values in column order, the untouched medical history as "", and closes the dialog |
| Scenarios.SubmitWithInvalidEmail | src/components/patients-form.tsx:134-474 | with a bad email, Next stops on the contact tab; jumping to medical by its header and submitting there is rejected at the email, shows the contact tab with that one message, and the dialog stays open |
| Scenarios.SubmitRefusedByDatabase | src/components/patients-form.tsx:111-117 | after walking to the medical tab, when the database refuses the insert the dialog stays open there and every typed value is kept |
| Scenarios.SingleInvalidFieldBlocksItsTab | src/components/patients-form.tsx:254-259 | with one failing field, the Next button of the tab that shows it refuses, with exactly one message under that field |
| Scenarios.InsuranceOnlyFailureRouting | src/components/patients-form.tsx:139-144 | when the only failing field is on the insurance tab, a submit shows insurance for the provider or policy number but medical for an emergency-contact field |

## Left out

- Database access: the PGlite connection, the worker, the table definition and the `db.query` call. The insert is modelled as its fifteen values; the database's answer is the parameter `persistOk`.
- The email syntax check of the validation library. It is the parameter `isEmail`. Scenarios that need a verdict on a particular string state it as a precondition.
- `Date.prototype.toDateString`, which renders the date. It is the parameter `dateString`; dates are opaque timestamps.
- The date picker's range restriction (no future dates, nothing before 1900). It only disables calendar cells and is not a rule of the schema.
- The order of the keys of the validation library's error object. The model assumes schema-declaration order (`Schema.FirstError`).
- Asynchrony: a second submit while the first insert is pending, the toast notification and the console log on a failed insert.
- Focus moves (`shouldFocus`) and re-validation of a field as it is edited once a submit has been attempted (the form keeps the validation library's default modes). `RegistrationForm.AddPatientForm.Edit` leaves the shown messages as they were.
- String lengths are counted in characters. The JavaScript runtime counts UTF-16 code units, so the two differ for characters outside the Basic Multilingual Plane.
- The free-form SQL query box, the theme toggle, the patient list columns, static configuration and all markup.
- The JSX rendering of each field's input is modelled only as the tab that shows it (`Tabs.RenderedOn`) and the values it can deliver (`Schema.Fits`).
- The gender select offers four values. The model, like the schema, accepts any string there.
