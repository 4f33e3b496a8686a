/**
 * End-to-end runs of the registration dialog: a form is created, filled in
 * through its inputs and driven through its buttons, and what the user ends
 * up seeing is stated about the outcome.
 */
module Scenarios {
  import opened Schema
  import opened Tabs
  import opened Submission
  import opened RegistrationForm

  /** 1 January 1990, as the date picker delivers it (midnight UTC). */
  const NewYear1990: Date := Date(631152000000)

  /** A complete registration with the given email; the medical history input
      is never touched, so it keeps its default, the empty string. */
  function Example(email: string): (d: Draft)
    ensures d.email == email && d.medicalHistory == Some("")
  {
    Defaults.(firstName := "John", lastName := "Doe", dateOfBirth := Some(NewYear1990), gender := Some("male"),
              email := email, phone := "1234567890", address := "123 Main St", city := "NYC", state := "NY",
              zipCode := "10001", insuranceProvider := "Acme", insuranceNumber := "A12345",
              emergencyContactName := "Jane Doe", emergencyContactPhone := "1234567890")
  }

  /** Apart from the email, which is left to the email check, the example meets every rule. */
  lemma ExampleMeetsEveryOtherRule(email: string, isEmail: string -> bool)
    ensures forall g :: g != Email ==> FieldOk(Example(email), g, isEmail)
    ensures Passes(Example(email), AllFields, isEmail) <==> isEmail(email)
  {
    assert !isEmail(email) ==> !FieldOk(Example(email), Email, isEmail);
  }

  /** With an email the check rejects, the email is the first and only failure. */
  lemma {:induction false} ExampleWithBadEmail(email: string, isEmail: string -> bool)
    requires !isEmail(email)
    ensures FirstError(Example(email), isEmail) == Some(Email)
    ensures Errors(Example(email), AllFields, isEmail) == map[Email := Message(Email)]
  {
    var d := Example(email);
    ExampleMeetsEveryOtherRule(email, isEmail);
    FirstErrorIsFirst(d, isEmail);
    OnlyFailureReported(d, AllFields, Email, isEmail);
  }

  /** Opens a fresh dialog and types the example in, tab by tab. */
  method FillIn(isEmail: string -> bool, dateString: Date -> string, email: string) returns (form: AddPatientForm)
    ensures fresh(form) && form.Valid()
    ensures form.open && form.activeTab == Personal && form.draft == Example(email) && form.errors == map[]
    ensures form.isEmail == isEmail && form.dateString == dateString
  {
    form := new AddPatientForm(isEmail, dateString);
    form.Open();
    TypePersonal(form);
    TypeContact(form, email);
    TypeInsurance(form);
  }

  /** Types the example's personal details. */
  method TypePersonal(form: AddPatientForm)
    requires form.Valid() && form.open
    modifies form
    ensures form.Valid() && unchanged(form`open, form`activeTab, form`errors)
    ensures form.draft == old(form.draft).(firstName := "John", lastName := "Doe",
                                           dateOfBirth := Some(NewYear1990), gender := Some("male"))
  {
    form.Edit(FirstName, Text("John"));
    form.Edit(LastName, Text("Doe"));
    form.Edit(DateOfBirth, Day(NewYear1990));
    form.Edit(Gender, Text("male"));
  }

  /** Types the example's contact details. */
  method TypeContact(form: AddPatientForm, email: string)
    requires form.Valid() && form.open
    modifies form
    ensures form.Valid() && unchanged(form`open, form`activeTab, form`errors)
    ensures form.draft == old(form.draft).(email := email, phone := "1234567890", address := "123 Main St",
                                           city := "NYC", state := "NY", zipCode := "10001")
  {
    form.Edit(Email, Text(email));
    form.Edit(Phone, Text("1234567890"));
    form.Edit(Address, Text("123 Main St"));
    form.Edit(City, Text("NYC"));
    form.Edit(State, Text("NY"));
    form.Edit(ZipCode, Text("10001"));
  }

  /** Types the example's insurance details and emergency contact. */
  method TypeInsurance(form: AddPatientForm)
    requires form.Valid() && form.open
    modifies form
    ensures form.Valid() && unchanged(form`open, form`activeTab, form`errors)
    ensures form.draft == old(form.draft).(insuranceProvider := "Acme", insuranceNumber := "A12345",
                                           emergencyContactName := "Jane Doe", emergencyContactPhone := "1234567890")
  {
    form.Edit(InsuranceProvider, Text("Acme"));
    form.Edit(InsuranceNumber, Text("A12345"));
    form.Edit(EmergencyContactName, Text("Jane Doe"));
    form.Edit(EmergencyContactPhone, Text("1234567890"));
  }

  /** A fresh form refuses Next on the personal tab, stays there, and shows a
      message under each of the four personal fields and nowhere else. */
  method FreshFormCannotLeavePersonal(isEmail: string -> bool, dateString: Date -> string)
    returns (moved: bool, tab: Tab, shown: set<Field>)
    ensures !moved && tab == Personal
    ensures shown == {FirstName, LastName, DateOfBirth, Gender}
  {
    var form := new AddPatientForm(isEmail, dateString);
    form.Open();
    moved := form.Next();
    tab := form.activeTab;
    shown := form.errors.Keys;
    FreshDraftBlocksPersonal(isEmail);
  }

  /** On the defaults every personal field fails, whatever the email check says. */
  lemma {:induction false} FreshDraftBlocksPersonal(isEmail: string -> bool)
    ensures !Passes(Defaults, Gate(Personal), isEmail)
    ensures Errors(Defaults, Gate(Personal), isEmail).Keys == Gate(Personal)
  {
    var r := Errors(Defaults, Gate(Personal), isEmail);
    forall f | f in Gate(Personal) ensures f in r {
      assert !FieldOk(Defaults, f, isEmail);
    }
    assert !FieldOk(Defaults, FirstName, isEmail);
  }

  /** Presses Next on the personal, contact and insurance tabs in turn, for a
      draft that passes every rule: each press moves on, ending on the medical tab. */
  method WalkToMedical(form: AddPatientForm) returns (moved: bool)
    requires form.Valid() && form.open && form.activeTab == Personal
    requires Passes(form.draft, AllFields, form.isEmail)
    modifies form
    ensures form.Valid() && form.open && form.activeTab == Medical && form.draft == old(form.draft)
    ensures moved
  {
    PassesAllIffEveryGate(form.draft, form.isEmail);
    var personal := form.Next();
    var contact := form.Next();
    var insurance := form.Next();
    moved := personal && contact && insurance;
  }

  /** The complete example is typed in and walked through the three Next
      buttons, then submitted from the medical tab: one insert of fifteen
      values in column order, the untouched medical history stored as the
      empty string rather than the fallback, and the dialog closes. */
  method SubmitCompleteRegistration(isEmail: string -> bool, dateString: Date -> string)
    returns (moved: bool, outcome: SubmitOutcome, open: bool, tab: Tab)
    requires isEmail("john@example.com")
    ensures moved
    ensures outcome == Saved(["John", "Doe", dateString(NewYear1990), "male", "john@example.com", "1234567890",
                              "123 Main St", "NYC", "NY", "10001", "Acme", "A12345", "Jane Doe", "1234567890", ""])
    ensures !open && tab == Medical
  {
    var form := FillIn(isEmail, dateString, "john@example.com");
    ExampleMeetsEveryOtherRule("john@example.com", isEmail);
    moved := WalkToMedical(form);
    assert FirstError(form.draft, isEmail).None?;
    outcome := form.Submit(true);
    open, tab := form.open, form.activeTab;
  }

  /** Presses Next on the personal and then the contact tab, for a draft that
      fails the email check alone: the first press moves on, the second does not. */
  method WalkUntilEmail(form: AddPatientForm) returns (leftPersonal: bool, leftContact: bool)
    requires form.Valid() && form.open && form.activeTab == Personal
    requires !FieldOk(form.draft, Email, form.isEmail)
    requires forall g :: g != Email ==> FieldOk(form.draft, g, form.isEmail)
    modifies form
    ensures form.Valid() && form.open && form.activeTab == Contact && form.draft == old(form.draft)
    ensures leftPersonal && !leftContact
  {
    leftPersonal := form.Next();
    leftContact := form.Next();
  }

  /** The same registration with an email the check rejects: Next leaves the
      personal tab but not the contact tab; jumping to the medical tab by its
      header and submitting there is rejected at the email, shows the contact
      tab with that one message, keeps the dialog open and never reaches the
      database. */
  method SubmitWithInvalidEmail(isEmail: string -> bool, dateString: Date -> string)
    returns (leftPersonal: bool, leftContact: bool, outcome: SubmitOutcome, open: bool, tab: Tab, shown: set<Field>)
    requires !isEmail("not-an-email")
    ensures leftPersonal && !leftContact
    ensures outcome == Rejected(Email)
    ensures open && tab == Contact && shown == {Email}
  {
    var form := FillIn(isEmail, dateString, "not-an-email");
    ExampleMeetsEveryOtherRule("not-an-email", isEmail);
    leftPersonal, leftContact := WalkUntilEmail(form);
    form.SelectTab(Medical);
    ExampleWithBadEmail("not-an-email", isEmail);
    outcome := form.Submit(true);
    open, tab := form.open, form.activeTab;
    shown := form.errors.Keys;
  }

  /** The database refuses the insert (a duplicate email, say): the dialog
      stays open on the medical tab and every typed value is still there for
      a retry. */
  method SubmitRefusedByDatabase(isEmail: string -> bool, dateString: Date -> string)
    returns (moved: bool, outcome: SubmitOutcome, open: bool, tab: Tab, kept: Draft)
    requires isEmail("john@example.com")
    ensures moved
    ensures outcome.SaveFailed? && |outcome.params| == 15
    ensures open && tab == Medical && kept == Example("john@example.com")
  {
    var form := FillIn(isEmail, dateString, "john@example.com");
    ExampleMeetsEveryOtherRule("john@example.com", isEmail);
    moved := WalkToMedical(form);
    assert FirstError(form.draft, isEmail).None?;
    outcome := form.Submit(false);
    open, tab, kept := form.open, form.activeTab, form.draft;
  }

  /** A draft whose one failing field is `f`: Next on the tab that shows `f`
      stays there with exactly one message, under `f`. */
  lemma {:induction false} SingleInvalidFieldBlocksItsTab(d: Draft, f: Field, isEmail: string -> bool)
    requires !FieldOk(d, f, isEmail)
    requires forall g :: g != f ==> FieldOk(d, g, isEmail)
    ensures f in Gate(RenderedOn(f)) && !Passes(d, Gate(RenderedOn(f)), isEmail)
    ensures Errors(d, Gate(RenderedOn(f)), isEmail) == map[f := Message(f)]
  {
    OptionalFieldNeverFails(d, isEmail);
    GateIsWhatTheTabShows(f, RenderedOn(f));
    OnlyFailureReported(d, Gate(RenderedOn(f)), f, isEmail);
  }

  /** A draft whose one failing field is shown on the insurance tab: a submit
      shows the insurance tab for the provider and the policy number, but the
      medical tab for either emergency-contact field. */
  lemma {:induction false} InsuranceOnlyFailureRouting(d: Draft, f: Field, isEmail: string -> bool)
    requires RenderedOn(f) == Insurance && !FieldOk(d, f, isEmail)
    requires forall g :: g != f ==> FieldOk(d, g, isEmail)
    ensures FirstError(d, isEmail) == Some(f)
    ensures RouteTab(f) == Insurance <==> f == InsuranceProvider || f == InsuranceNumber
  {
    FirstErrorIsFirst(d, isEmail);
  }
}
