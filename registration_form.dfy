/**
 * The registration dialog's controller: whether the dialog is open, which tab
 * is active, the draft being filled in, and the per-field messages on display.
 * Each method is one user action on the dialog.
 *
 * The database is not modelled: a submit that reaches it is told, through the
 * parameter `persistOk`, whether the insert succeeded.
 */
module RegistrationForm {
  import opened Schema
  import opened Tabs
  import opened Submission

  /** What a press of the submit button leads to. */
  datatype SubmitOutcome =
    | Rejected(first: Field)          // validation failed at `first`; nothing reaches the database
    | Saved(params: seq<string>)      // the insert with these values succeeded
    | SaveFailed(params: seq<string>) // the insert with these values was sent and failed

  class AddPatientForm {
    var open: bool
    var activeTab: Tab
    var draft: Draft
    /** The messages shown under fields, keyed by field. */
    var errors: map<Field, string>
    /** The validator's email-syntax check. */
    const isEmail: string -> bool
    /** The runtime's rendering of a date as text. */
    const dateString: Date -> string

    /** The controller's invariant: the medical history always holds text, since
        its default is the empty string and its input only ever delivers text. */
    ghost predicate Valid()
      reads this`draft
    {
      draft.medicalHistory.Some?
    }

    /** A fresh form: dialog closed, personal tab, default values, no messages. */
    constructor(isEmail: string -> bool, dateString: Date -> string)
      ensures Valid()
      ensures !open && activeTab == Personal && draft == Defaults && errors == map[]
      ensures this.isEmail == isEmail && this.dateString == dateString
    {
      open := false;
      activeTab := Personal;
      draft := Defaults;
      errors := map[];
      this.isEmail := isEmail;
      this.dateString := dateString;
    }

    /** The "Register New Patient" button: the dialog opens on the tab and the
        values it had when it was last closed. */
    method Open()
      requires Valid()
      modifies this`open
      ensures Valid() && open
      ensures activeTab == old(activeTab) && draft == old(draft)
    {
      open := true;
    }

    /** Dismissing the dialog: nothing is reset. */
    method Close()
      requires Valid()
      modifies this`open
      ensures Valid() && !open
      ensures activeTab == old(activeTab) && draft == old(draft)
    {
      open := false;
    }

    /** The user changes one field; no validation runs and the tab stays. */
    method Edit(f: Field, e: Entry)
      requires Valid() && open && Fits(f, e)
      modifies this`draft
      ensures Valid()
      ensures draft == Set(old(draft), f, e)
    {
      draft := Set(draft, f, e);
    }

    /** Clicking a tab header: any tab, no validation. */
    method SelectTab(t: Tab)
      requires Valid() && open
      modifies this`activeTab
      ensures Valid() && activeTab == t
    {
      activeTab := t;
    }

    /** A Previous button: one tab back, no validation. The personal tab has none. */
    method Previous()
      requires Valid() && open && activeTab != Personal
      modifies this`activeTab
      ensures Valid() && activeTab == Backward(old(activeTab))
    {
      activeTab := Backward(activeTab);
    }

    /** A Next button: validate the active tab's fields only, refresh their
        messages, and move on exactly when all of them pass. The medical tab has none. */
    method Next() returns (ok: bool)
      requires Valid() && open && activeTab != Medical
      modifies this`activeTab, this`errors
      ensures Valid()
      ensures ok <==> Passes(draft, Gate(old(activeTab)), isEmail)
      ensures activeTab == if ok then Forward(old(activeTab)) else old(activeTab)
      ensures errors == (old(errors) - Gate(old(activeTab))) + Errors(draft, Gate(old(activeTab)), isEmail)
    {
      var gate := Gate(activeTab);
      var found := Errors(draft, gate, isEmail);
      ErrorsReportFailures(draft, gate, isEmail);
      errors := (errors - gate) + found;
      ok := found == map[];
      if ok {
        activeTab := Forward(activeTab);
      }
    }

    /** Full validation: every field is checked and the messages on display
        become exactly those of the failing fields. */
    method ShowAllErrors()
      requires Valid()
      modifies this`errors
      ensures Valid() && errors == Errors(draft, AllFields, isEmail)
    {
      errors := Errors(draft, AllFields, isEmail);
    }

    /** The submit button: validate every field and replace every message; on
        failure show the tab the router picks for the first failing field,
        otherwise send the insert and close the dialog when it succeeds. The
        draft is never reset. */
    method Submit(persistOk: bool) returns (outcome: SubmitOutcome)
      requires Valid() && open
      modifies this`activeTab, this`errors, this`open
      ensures Valid()
      ensures outcome == SubmitResult(draft, isEmail, dateString, persistOk)
      ensures errors == Errors(draft, AllFields, isEmail)
      ensures activeTab == if outcome.Rejected? then RouteTab(outcome.first) else old(activeTab)
      ensures open == !outcome.Saved?
      ensures !outcome.Rejected? ==> |outcome.params| == 15 && outcome.params[14] == draft.medicalHistory.value
    {
      ShowAllErrors();
      var first := FirstError(draft, isEmail);
      if first.Some? {
        activeTab := RouteOnError(activeTab, first);
        outcome := Rejected(first.value);
      } else {
        ValidatedIsSubmittable(draft, isEmail);
        var params := InsertParams(draft, dateString);
        MedicalHistoryFallback(draft, dateString);
        if persistOk {
          open := false;
          outcome := Saved(params);
        } else {
          outcome := SaveFailed(params);
        }
      }
    }
  }

  /** What a submit of draft `d` leads to when the database answers `persistOk`. */
  function SubmitResult(d: Draft, isEmail: string -> bool, dateString: Date -> string, persistOk: bool): SubmitOutcome {
    match FirstError(d, isEmail)
    case Some(f) => Rejected(f)
    case None =>
      ValidatedIsSubmittable(d, isEmail);
      var params := InsertParams(d, dateString);
      if persistOk then Saved(params) else SaveFailed(params)
  }

  /** A submit reaches the database exactly when every field passes, and then
      whatever the database answers; a rejected submit names the failing field
      the schema declares first; an insert carries the fifteen values in column
      order, and a medical history that is present is stored as it is. */
  lemma {:induction false} SubmitResultSpec(d: Draft, isEmail: string -> bool, dateString: Date -> string, persistOk: bool)
    ensures var r := SubmitResult(d, isEmail, dateString, persistOk);
      && (r.Rejected? <==> !Passes(d, AllFields, isEmail))
      && (r.Rejected? ==> !FieldOk(d, r.first, isEmail) && forall g :: !FieldOk(d, g, isEmail) ==> Rank(r.first) <= Rank(g))
      && (!r.Rejected? ==> (r.Saved? <==> persistOk) && Submittable(d) && r.params == InsertParams(d, dateString))
      && (!r.Rejected? && d.medicalHistory.Some? ==> |r.params| == 15 && r.params[14] == d.medicalHistory.value)
  {
    var r := SubmitResult(d, isEmail, dateString, persistOk);
    if r.Rejected? {
      FirstErrorIsFirst(d, isEmail);
    } else {
      ValidatedIsSubmittable(d, isEmail);
      MedicalHistoryFallback(d, dateString);
    }
  }
}
