/**
 * The form's four tabs: their fixed order, the fields each tab's Next button
 * validates, the tab on which each field's input is shown, and the router that
 * picks the tab to show when a submit fails validation.
 */
module Tabs {
  import opened Schema

  datatype Tab = Personal | Contact | Insurance | Medical

  /** Place of a tab in the order personal, contact, insurance, medical. */
  function Position(t: Tab): nat {
    match t
    case Personal => 0
    case Contact => 1
    case Insurance => 2
    case Medical => 3
  }

  /** The tab a Next button leads to; the medical tab has no Next button, so
      there the step stays put. */
  function Forward(t: Tab): (r: Tab)
    ensures t != Medical ==> Position(r) == Position(t) + 1
    ensures t == Medical ==> r == t
  {
    match t
    case Personal => Contact
    case Contact => Insurance
    case Insurance => Medical
    case Medical => Medical
  }

  /** The tab a Previous button leads to; the personal tab has no Previous
      button, so there the step stays put. */
  function Backward(t: Tab): (r: Tab)
    ensures t != Personal ==> Position(r) + 1 == Position(t)
    ensures t == Personal ==> r == t
  {
    match t
    case Personal => Personal
    case Contact => Personal
    case Insurance => Contact
    case Medical => Insurance
  }

  /** Previous undoes Next and Next undoes Previous, wherever both buttons exist. */
  lemma StepsAreInverse(t: Tab)
    ensures t != Medical ==> Backward(Forward(t)) == t
    ensures t != Personal ==> Forward(Backward(t)) == t
  {
  }

  /** The fields a tab's Next button validates before it moves on. */
  function Gate(t: Tab): set<Field> {
    match t
    case Personal => {FirstName, LastName, DateOfBirth, Gender}
    case Contact => {Email, Phone, Address, City, State, ZipCode}
    case Insurance => {InsuranceProvider, InsuranceNumber, EmergencyContactName, EmergencyContactPhone}
    case Medical => {}
  }

  /** The tab whose panel holds the input of a field. */
  function RenderedOn(f: Field): Tab {
    match f
    case FirstName | LastName | DateOfBirth | Gender => Personal
    case Email | Phone | Address | City | State | ZipCode => Contact
    case InsuranceProvider | InsuranceNumber | EmergencyContactName | EmergencyContactPhone => Insurance
    case MedicalHistory => Medical
  }

  /** Each Next button validates exactly the fields shown on its own tab. */
  lemma GateIsWhatTheTabShows(f: Field, t: Tab)
    ensures f in Gate(t) <==> t != Medical && RenderedOn(f) == t
  {
  }

  /** The three Next buttons between them validate every required field, each once. */
  lemma {:induction false} GatesPartitionRequiredFields()
    ensures Gate(Personal) + Gate(Contact) + Gate(Insurance) == AllFields - {MedicalHistory}
    ensures Gate(Personal) !! Gate(Contact) && Gate(Personal) !! Gate(Insurance) && Gate(Contact) !! Gate(Insurance)
  {
    forall f ensures f in Gate(Personal) + Gate(Contact) + Gate(Insurance) <==> f in AllFields - {MedicalHistory} {
      Declared(f);
      GateIsWhatTheTabShows(f, RenderedOn(f));
    }
  }

  /** A draft passes full validation exactly when it passes the Next buttons of
      the personal, contact and insurance tabs. */
  lemma {:induction false} PassesAllIffEveryGate(d: Draft, isEmail: string -> bool)
    ensures Passes(d, AllFields, isEmail) <==>
      Passes(d, Gate(Personal), isEmail) && Passes(d, Gate(Contact), isEmail) && Passes(d, Gate(Insurance), isEmail)
  {
    GatesPartitionRequiredFields();
  }

  /** The tab shown after a submit whose first failing field is `f`. */
  function RouteTab(f: Field): Tab {
    if f in {InsuranceProvider, InsuranceNumber} then Insurance
    else if f in {Email, Phone, Address, City, State, ZipCode} then Contact
    else if f in {EmergencyContactName, EmergencyContactPhone, MedicalHistory} then Medical
    else Personal
  }

  /** The tab shown after a failed submit: with no failing field the tab stays as it was. */
  function RouteOnError(current: Tab, first: Option<Field>): (r: Tab)
    ensures first.None? ==> r == current
  {
    match first
    case None => current
    case Some(f) => RouteTab(f)
  }

  /** The router sends each field to the tab that shows it, except the two
      emergency-contact fields: they are shown on the insurance tab but routed
      to the medical tab. */
  lemma RouteMatchesRenderingExceptEmergencyContact(f: Field)
    ensures RouteTab(f) == RenderedOn(f) <==> f != EmergencyContactName && f != EmergencyContactPhone
    ensures f == EmergencyContactName || f == EmergencyContactPhone ==>
      RenderedOn(f) == Insurance && RouteTab(f) == Medical
  {
  }

  /** Fields shown on an earlier tab are declared earlier in the schema. */
  lemma DeclarationFollowsTabs(f: Field, g: Field)
    requires Position(RenderedOn(g)) < Position(RenderedOn(f))
    ensures Rank(g) < Rank(f)
  {
  }

  /** Field `f` fails and every field declared before it passes. */
  ghost predicate FirstToFail(d: Draft, isEmail: string -> bool, f: Field) {
    !FieldOk(d, f, isEmail) && forall g :: Rank(g) < Rank(f) ==> FieldOk(d, g, isEmail)
  }

  /** Every field shown on an earlier tab than the first failing field passes. */
  lemma {:induction false} EarlierTabsPass(d: Draft, isEmail: string -> bool, f: Field)
    requires FirstToFail(d, isEmail, f)
    ensures forall g :: Position(RenderedOn(g)) < Position(RenderedOn(f)) ==> FieldOk(d, g, isEmail)
  {
    forall g | Position(RenderedOn(g)) < Position(RenderedOn(f)) ensures FieldOk(d, g, isEmail) {
      DeclarationFollowsTabs(f, g);
    }
  }

  /** After a failed submit the form shows the first tab whose Next button would
      refuse the draft, with one exception: when that tab is the insurance tab and
      only its emergency-contact fields fail, the form shows the medical tab,
      which holds neither of them. */
  lemma {:induction false} SubmitRoutesToFirstBlockedTab(d: Draft, isEmail: string -> bool)
    requires FirstError(d, isEmail).Some?
    ensures var t := RouteTab(FirstError(d, isEmail).value);
      && (t != Medical ==> !Passes(d, Gate(t), isEmail))
      && (t != Medical ==> forall u :: Position(u) < Position(t) ==> Passes(d, Gate(u), isEmail))
      && (t == Medical ==>
            && Passes(d, Gate(Personal), isEmail) && Passes(d, Gate(Contact), isEmail)
            && FieldOk(d, InsuranceProvider, isEmail) && FieldOk(d, InsuranceNumber, isEmail)
            && !Passes(d, Gate(Insurance), isEmail))
  {
    var f := FirstError(d, isEmail).value;
    FirstErrorIsFirst(d, isEmail);
    assert FirstToFail(d, isEmail, f);
    if RouteTab(f) != Medical {
      RoutedToShowingTab(d, isEmail, f);
    } else {
      RoutedToMedical(d, isEmail, f);
    }
  }

  lemma {:induction false} RoutedToShowingTab(d: Draft, isEmail: string -> bool, f: Field)
    requires FirstToFail(d, isEmail, f) && RouteTab(f) != Medical
    ensures !Passes(d, Gate(RouteTab(f)), isEmail)
    ensures forall u :: Position(u) < Position(RouteTab(f)) ==> Passes(d, Gate(u), isEmail)
  {
    var t := RouteTab(f);
    RouteMatchesRenderingExceptEmergencyContact(f);
    assert t == RenderedOn(f);
    GateIsWhatTheTabShows(f, t);
    EarlierTabsPass(d, isEmail, f);
    forall u, g | Position(u) < Position(t) && g in Gate(u) ensures FieldOk(d, g, isEmail) {
      GateIsWhatTheTabShows(g, u);
    }
  }

  lemma {:induction false} RoutedToMedical(d: Draft, isEmail: string -> bool, f: Field)
    requires FirstToFail(d, isEmail, f) && RouteTab(f) == Medical
    ensures Passes(d, Gate(Personal), isEmail) && Passes(d, Gate(Contact), isEmail)
    ensures FieldOk(d, InsuranceProvider, isEmail) && FieldOk(d, InsuranceNumber, isEmail)
    ensures !Passes(d, Gate(Insurance), isEmail)
  {
    OptionalFieldNeverFails(d, isEmail);
    assert f == EmergencyContactName || f == EmergencyContactPhone;
    assert f in Gate(Insurance);
    EarlierTabsPass(d, isEmail, f);
    forall g | g in Gate(Personal) + Gate(Contact) ensures FieldOk(d, g, isEmail) {
      assert Position(RenderedOn(g)) < Position(RenderedOn(f));
    }
    assert Rank(InsuranceProvider) < Rank(f) && Rank(InsuranceNumber) < Rank(f);
  }
}
