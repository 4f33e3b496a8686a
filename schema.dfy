/**
 * The patient registration form's schema: the fifteen fields, the rule the
 * schema attaches to each one, the draft that holds their current values, and
 * the validation of any subset of fields against those rules.
 *
 * The email-syntax check belongs to the validation library and is not modelled:
 * every member that needs it takes it as the parameter `isEmail`.
 */
module Schema {

  datatype Option<T> = None | Some(value: T)

  /** A calendar date as the date picker delivers it; kept opaque (a millisecond timestamp). */
  datatype Date = Date(epochMillis: int)

  /** The form's fields. */
  datatype Field =
    | FirstName | LastName | DateOfBirth | Gender
    | Email | Phone | Address | City | State | ZipCode
    | InsuranceProvider | InsuranceNumber | EmergencyContactName | EmergencyContactPhone
    | MedicalHistory

  /** The fields in the order the schema declares them. */
  const DeclarationOrder: seq<Field> :=
    [FirstName, LastName, DateOfBirth, Gender, Email, Phone, Address, City, State, ZipCode,
     InsuranceProvider, InsuranceNumber, EmergencyContactName, EmergencyContactPhone, MedicalHistory]

  const AllFields: set<Field> :=
    {FirstName, LastName, DateOfBirth, Gender, Email, Phone, Address, City, State, ZipCode,
     InsuranceProvider, InsuranceNumber, EmergencyContactName, EmergencyContactPhone, MedicalHistory}

  /** Position of a field in DeclarationOrder. */
  function Rank(f: Field): (k: nat)
    ensures k < |DeclarationOrder| && DeclarationOrder[k] == f
  {
    match f
    case FirstName => 0
    case LastName => 1
    case DateOfBirth => 2
    case Gender => 3
    case Email => 4
    case Phone => 5
    case Address => 6
    case City => 7
    case State => 8
    case ZipCode => 9
    case InsuranceProvider => 10
    case InsuranceNumber => 11
    case EmergencyContactName => 12
    case EmergencyContactPhone => 13
    case MedicalHistory => 14
  }

  /** The kinds of rule the schema uses. */
  datatype Rule =
    | MinLength(min: nat)   // a string of at least `min` characters
    | EmailAddress          // a string the email check accepts
    | RequiredDate          // a date, which must be present
    | RequiredString        // any string, which must be present
    | OptionalString        // a string, or nothing at all

  /** The rule the schema declares for each field. */
  function RuleOf(f: Field): Rule {
    match f
    case FirstName => MinLength(2)
    case LastName => MinLength(2)
    case DateOfBirth => RequiredDate
    case Gender => RequiredString
    case Email => EmailAddress
    case Phone => MinLength(10)
    case Address => MinLength(5)
    case City => MinLength(2)
    case State => MinLength(2)
    case ZipCode => MinLength(5)
    case InsuranceProvider => MinLength(2)
    case InsuranceNumber => MinLength(5)
    case EmergencyContactName => MinLength(2)
    case EmergencyContactPhone => MinLength(10)
    case MedicalHistory => OptionalString
  }

  /** The message shown under a field whose rule fails; the optional field never fails. */
  function Message(f: Field): string
    requires f != MedicalHistory
  {
    match f
    case FirstName => "First name must be at least 2 characters"
    case LastName => "Last name must be at least 2 characters"
    case DateOfBirth => "Date of birth is required"
    case Gender => "Please select a gender"
    case Email => "Please enter a valid email address"
    case Phone => "Phone number must be at least 10 digits"
    case Address => "Address must be at least 5 characters"
    case City => "City must be at least 2 characters"
    case State => "State must be at least 2 characters"
    case ZipCode => "Zip code must be at least 5 characters"
    case InsuranceProvider => "Insurance provider must be at least 2 characters"
    case InsuranceNumber => "Insurance number must be at least 5 characters"
    case EmergencyContactName => "Emergency contact name must be at least 2 characters"
    case EmergencyContactPhone => "Emergency contact phone must be at least 10 digits"
  }

  /** The form's current values. Text inputs always hold a string; the date
      picker and the gender select start with nothing selected. */
  datatype Draft = Draft(
    firstName: string,
    lastName: string,
    dateOfBirth: Option<Date>,
    gender: Option<string>,
    email: string,
    phone: string,
    address: string,
    city: string,
    state: string,
    zipCode: string,
    insuranceProvider: string,
    insuranceNumber: string,
    emergencyContactName: string,
    emergencyContactPhone: string,
    medicalHistory: Option<string>)

  /** The form's default values: every text field empty, no date and no gender. */
  const Defaults: Draft :=
    Draft("", "", None, None, "", "", "", "", "", "", "", "", "", "", Some(""))

  /** What one field holds, as the validator sees it. */
  datatype Entry = Absent | Text(s: string) | Day(date: Date)

  /** The value of field `f` in draft `d`. */
  function Get(d: Draft, f: Field): Entry {
    match f
    case FirstName => Text(d.firstName)
    case LastName => Text(d.lastName)
    case DateOfBirth => if d.dateOfBirth.Some? then Day(d.dateOfBirth.value) else Absent
    case Gender => if d.gender.Some? then Text(d.gender.value) else Absent
    case Email => Text(d.email)
    case Phone => Text(d.phone)
    case Address => Text(d.address)
    case City => Text(d.city)
    case State => Text(d.state)
    case ZipCode => Text(d.zipCode)
    case InsuranceProvider => Text(d.insuranceProvider)
    case InsuranceNumber => Text(d.insuranceNumber)
    case EmergencyContactName => Text(d.emergencyContactName)
    case EmergencyContactPhone => Text(d.emergencyContactPhone)
    case MedicalHistory => if d.medicalHistory.Some? then Text(d.medicalHistory.value) else Absent
  }

  /** What the input control of field `f` can deliver: the date picker a date,
      or nothing when the selected day is clicked again; every other control a string. */
  predicate Fits(f: Field, e: Entry) {
    if f == DateOfBirth then !e.Text? else e.Text?
  }

  /** The draft after the user changes field `f` to `e`: that field, and no other, changes. */
  function Set(d: Draft, f: Field, e: Entry): (r: Draft)
    requires Fits(f, e)
    ensures Get(r, f) == e
    ensures forall g :: g != f ==> Get(r, g) == Get(d, g)
  {
    match f
    case FirstName => d.(firstName := e.s)
    case LastName => d.(lastName := e.s)
    case DateOfBirth => d.(dateOfBirth := if e.Day? then Some(e.date) else None)
    case Gender => d.(gender := Some(e.s))
    case Email => d.(email := e.s)
    case Phone => d.(phone := e.s)
    case Address => d.(address := e.s)
    case City => d.(city := e.s)
    case State => d.(state := e.s)
    case ZipCode => d.(zipCode := e.s)
    case InsuranceProvider => d.(insuranceProvider := e.s)
    case InsuranceNumber => d.(insuranceNumber := e.s)
    case EmergencyContactName => d.(emergencyContactName := e.s)
    case EmergencyContactPhone => d.(emergencyContactPhone := e.s)
    case MedicalHistory => d.(medicalHistory := Some(e.s))
  }

  /** Editing one field twice keeps only the last value; editing it to the value
      it already holds changes nothing. */
  lemma {:induction false} SetOverwrites(d: Draft, f: Field, e1: Entry, e2: Entry)
    requires Fits(f, e1) && Fits(f, e2)
    ensures Set(Set(d, f, e1), f, e2) == Set(d, f, e2)
    ensures Fits(f, Get(d, f)) ==> Set(d, f, Get(d, f)) == d
  {
  }

  /** Whether entry `e` satisfies rule `rule`. */
  predicate Satisfies(e: Entry, rule: Rule, isEmail: string -> bool) {
    match rule
    case MinLength(n) => e.Text? && |e.s| >= n
    case EmailAddress => e.Text? && isEmail(e.s)
    case RequiredDate => e.Day?
    case RequiredString => e.Text?
    case OptionalString => !e.Day?
  }

  /** Whether field `f` of draft `d` passes validation, read off the draft. */
  predicate FieldOk(d: Draft, f: Field, isEmail: string -> bool) {
    match f
    case FirstName => |d.firstName| >= 2
    case LastName => |d.lastName| >= 2
    case DateOfBirth => d.dateOfBirth.Some?
    case Gender => d.gender.Some?
    case Email => isEmail(d.email)
    case Phone => |d.phone| >= 10
    case Address => |d.address| >= 5
    case City => |d.city| >= 2
    case State => |d.state| >= 2
    case ZipCode => |d.zipCode| >= 5
    case InsuranceProvider => |d.insuranceProvider| >= 2
    case InsuranceNumber => |d.insuranceNumber| >= 5
    case EmergencyContactName => |d.emergencyContactName| >= 2
    case EmergencyContactPhone => |d.emergencyContactPhone| >= 10
    case MedicalHistory => true
  }

  /** The per-field verdict is the schema's rule applied to the field's value. */
  lemma FieldOkFollowsRule(d: Draft, f: Field, isEmail: string -> bool)
    ensures FieldOk(d, f, isEmail) <==> Satisfies(Get(d, f), RuleOf(f), isEmail)
  {
  }

  /** The optional field never fails. */
  lemma OptionalFieldNeverFails(d: Draft, isEmail: string -> bool)
    ensures FieldOk(d, MedicalHistory, isEmail)
  {
  }

  /** A field's verdict depends on that field's value only. */
  lemma {:induction false} FieldOkIsLocal(d1: Draft, d2: Draft, f: Field, isEmail: string -> bool)
    requires Get(d1, f) == Get(d2, f)
    ensures FieldOk(d1, f, isEmail) == FieldOk(d2, f, isEmail)
  {
    FieldOkFollowsRule(d1, f, isEmail);
    FieldOkFollowsRule(d2, f, isEmail);
  }

  /** Whether every field in `fs` passes. */
  predicate Passes(d: Draft, fs: set<Field>, isEmail: string -> bool) {
    forall f :: f in fs ==> FieldOk(d, f, isEmail)
  }

  /** The validation result for the fields in `fs`: one message under each failing field. */
  function Errors(d: Draft, fs: set<Field>, isEmail: string -> bool): map<Field, string> {
    map f | f in fs && !FieldOk(d, f, isEmail) :: Message(f)
  }

  /** Validation reports exactly the failing fields among those named, each with
      its rule's message, and an empty result means every named field passes. */
  lemma ErrorsReportFailures(d: Draft, fs: set<Field>, isEmail: string -> bool)
    ensures var r := Errors(d, fs, isEmail);
      && r.Keys <= fs && MedicalHistory !in r
      && (forall f :: f in fs ==> (f in r <==> !FieldOk(d, f, isEmail)))
      && (forall f :: f in r ==> r[f] == Message(f))
      && (r == map[] <==> Passes(d, fs, isEmail))
  {
    var r := Errors(d, fs, isEmail);
    if r == map[] {
      forall f | f in fs ensures FieldOk(d, f, isEmail) {
        assert f !in r;
      }
    }
  }

  /** When `f` is the one failing field among those named, validation reports
      it alone, with its message. */
  lemma OnlyFailureReported(d: Draft, fs: set<Field>, f: Field, isEmail: string -> bool)
    requires f in fs && !FieldOk(d, f, isEmail)
    requires forall g :: g in fs && g != f ==> FieldOk(d, g, isEmail)
    ensures Errors(d, fs, isEmail) == map[f := Message(f)]
  {
    var r := Errors(d, fs, isEmail);
    assert r.Keys == {f};
  }

  /** Validating a set of fields looks at those fields only: two drafts that agree
      on them get the same result, whatever their other fields hold. */
  lemma {:induction false} ErrorsOnlyReadNamedFields(d1: Draft, d2: Draft, fs: set<Field>, isEmail: string -> bool)
    requires forall f :: f in fs ==> Get(d1, f) == Get(d2, f)
    ensures Errors(d1, fs, isEmail) == Errors(d2, fs, isEmail)
  {
    forall f | f in fs ensures FieldOk(d1, f, isEmail) == FieldOk(d2, f, isEmail) {
      FieldOkIsLocal(d1, d2, f, isEmail);
    }
  }

  /** Validating a union of field sets gives the union of the results. */
  lemma {:induction false} ErrorsOfUnion(d: Draft, fs: set<Field>, gs: set<Field>, isEmail: string -> bool)
    ensures Errors(d, fs + gs, isEmail) == Errors(d, fs, isEmail) + Errors(d, gs, isEmail)
  {
  }

  /** Index of the first field of `fs` that fails its rule, or |fs| when none fails. */
  function FirstFailing(d: Draft, fs: seq<Field>, isEmail: string -> bool): (k: nat)
    ensures k <= |fs|
    ensures forall j :: 0 <= j < k ==> FieldOk(d, fs[j], isEmail)
    ensures k < |fs| ==> !FieldOk(d, fs[k], isEmail)
    decreases |fs|
  {
    if fs == [] then 0
    else if !FieldOk(d, fs[0], isEmail) then 0
    else 1 + FirstFailing(d, fs[1..], isEmail)
  }

  /** The failing field the schema declares first, if any field fails. */
  function FirstError(d: Draft, isEmail: string -> bool): (r: Option<Field>)
    ensures r.None? <==> Passes(d, AllFields, isEmail)
    ensures r.Some? ==> !FieldOk(d, r.value, isEmail)
  {
    var k := FirstFailing(d, DeclarationOrder, isEmail);
    FirstFailingRanks(d, isEmail, k);
    if k < |DeclarationOrder| then Some(DeclarationOrder[k]) else None
  }

  /** No field declared before the first error fails. */
  lemma {:induction false} FirstErrorIsFirst(d: Draft, isEmail: string -> bool)
    requires FirstError(d, isEmail).Some?
    ensures forall g :: !FieldOk(d, g, isEmail) ==> Rank(FirstError(d, isEmail).value) <= Rank(g)
  {
    var k := FirstFailing(d, DeclarationOrder, isEmail);
    FirstFailingRanks(d, isEmail, k);
  }

  /** What FirstFailing over the declaration order says, in terms of Rank. */
  lemma FirstFailingRanks(d: Draft, isEmail: string -> bool, k: nat)
    requires k == FirstFailing(d, DeclarationOrder, isEmail)
    ensures forall g :: Rank(g) < k ==> FieldOk(d, g, isEmail)
    ensures k < |DeclarationOrder| ==> Rank(DeclarationOrder[k]) == k && !FieldOk(d, DeclarationOrder[k], isEmail)
  {
    forall g | Rank(g) < k ensures FieldOk(d, g, isEmail) {
      assert DeclarationOrder[Rank(g)] == g;
    }
    if k < |DeclarationOrder| {
      RankOfPosition(k);
    }
  }

  /** Rank inverts DeclarationOrder. */
  lemma RankOfPosition(k: nat)
    requires k < |DeclarationOrder|
    ensures Rank(DeclarationOrder[k]) == k
  {
  }

  /** The defaults fail every rule except the optional field's (the email check is
      assumed, like the validator's, to reject the empty string). */
  lemma {:induction false} DefaultsFailEveryRequiredField(isEmail: string -> bool)
    requires !isEmail("")
    ensures forall f :: f in Errors(Defaults, AllFields, isEmail) <==> f != MedicalHistory
  {
    forall f ensures f in Errors(Defaults, AllFields, isEmail) <==> f != MedicalHistory {
      Declared(f);
      DefaultFails(f, isEmail);
    }
  }

  /** A default value passes its rule only for the optional field. */
  lemma DefaultFails(f: Field, isEmail: string -> bool)
    requires !isEmail("")
    ensures FieldOk(Defaults, f, isEmail) <==> f == MedicalHistory
  {
  }

  /** Every field is declared in the schema. */
  lemma Declared(f: Field)
    ensures f in AllFields
  {
  }

  /** On the defaults, the first failing field is the first name. */
  lemma {:induction false} DefaultsFirstError(isEmail: string -> bool)
    ensures FirstError(Defaults, isEmail) == Some(FirstName)
  {
    FirstErrorIsFirst(Defaults, isEmail);
  }
}
