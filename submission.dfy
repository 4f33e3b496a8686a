/**
 * What a successful submit hands to the database: one parameterised INSERT
 * into `patients`, naming fifteen columns, with fifteen positional values.
 *
 * The date-to-text conversion belongs to the JavaScript runtime and is not
 * modelled: every member that needs it takes it as the parameter `dateString`.
 */
module Submission {
  import opened Schema

  /** The key of each field in the schema, which is also the name of its column. */
  function Key(f: Field): string {
    match f
    case FirstName => "firstName"
    case LastName => "lastName"
    case DateOfBirth => "dateOfBirth"
    case Gender => "gender"
    case Email => "email"
    case Phone => "phone"
    case Address => "address"
    case City => "city"
    case State => "state"
    case ZipCode => "zipCode"
    case InsuranceProvider => "insuranceProvider"
    case InsuranceNumber => "insuranceNumber"
    case EmergencyContactName => "emergencyContactName"
    case EmergencyContactPhone => "emergencyContactPhone"
    case MedicalHistory => "medicalHistory"
  }

  /** The column list of the INSERT statement, in its written order. */
  const InsertColumns: seq<string> :=
    ["firstName", "lastName", "dateOfBirth", "gender", "email", "phone", "address", "city", "state", "zipCode",
     "insuranceProvider", "insuranceNumber", "emergencyContactName", "emergencyContactPhone", "medicalHistory"]

  /** The field whose value is bound to each placeholder $1 … $15, in order. */
  const BindOrder: seq<Field> :=
    [FirstName, LastName, DateOfBirth, Gender, Email, Phone, Address, City, State, ZipCode,
     InsuranceProvider, InsuranceNumber, EmergencyContactName, EmergencyContactPhone, MedicalHistory]

  /** Placeholder $i+1 receives the value of the field whose column is the i-th
      column of the statement, and every field is bound exactly once. */
  lemma ColumnsMatchBindings()
    ensures |InsertColumns| == |BindOrder| == 15
    ensures forall i :: 0 <= i < 15 ==> InsertColumns[i] == Key(BindOrder[i])
    ensures forall f :: f in BindOrder
    ensures forall i, j :: 0 <= i < j < 15 ==> BindOrder[i] != BindOrder[j]
  {
    forall f ensures f in BindOrder {
      assert BindOrder[Rank(f)] == f;
    }
  }

  /** The validated data the submit handler receives always carries a date and a gender. */
  predicate Submittable(d: Draft) {
    d.dateOfBirth.Some? && d.gender.Some?
  }

  /** A draft that passes validation can be submitted. */
  lemma ValidatedIsSubmittable(d: Draft, isEmail: string -> bool)
    requires Passes(d, AllFields, isEmail)
    ensures Submittable(d)
  {
    assert FieldOk(d, DateOfBirth, isEmail) && FieldOk(d, Gender, isEmail);
  }

  /** The value bound for field `f`: the text as typed, the date as the runtime
      renders it, and for a missing medical history the fallback "1". */
  function Bound(d: Draft, f: Field, dateString: Date -> string): string
    requires Submittable(d)
  {
    match Get(d, f)
    case Text(s) => s
    case Day(x) => dateString(x)
    case Absent => "1"
  }

  /** The fifteen values of the INSERT, in the order of its placeholders. */
  function InsertParams(d: Draft, dateString: Date -> string): (r: seq<string>)
    requires Submittable(d)
    ensures |r| == |InsertColumns|
  {
    [d.firstName,
     d.lastName,
     dateString(d.dateOfBirth.value),
     d.gender.value,
     d.email,
     d.phone,
     d.address,
     d.city,
     d.state,
     d.zipCode,
     d.insuranceProvider,
     d.insuranceNumber,
     d.emergencyContactName,
     d.emergencyContactPhone,
     match d.medicalHistory
     case Some(h) => h
     case None => "1"]
  }

  /** Placeholder $i+1 carries the value of the field bound at position i. */
  lemma InsertParamsFollowBindOrder(d: Draft, dateString: Date -> string)
    requires Submittable(d)
    ensures forall i :: 0 <= i < |BindOrder| ==> InsertParams(d, dateString)[i] == Bound(d, BindOrder[i], dateString)
  {
  }

  /** The fallback applies only to a missing medical history: a present one,
      the empty string included, is stored as it is. */
  lemma MedicalHistoryFallback(d: Draft, dateString: Date -> string)
    requires Submittable(d)
    ensures d.medicalHistory.Some? ==> InsertParams(d, dateString)[14] == d.medicalHistory.value
    ensures d.medicalHistory.None? ==> InsertParams(d, dateString)[14] == "1"
  {
  }

  /** The insert loses nothing but the time of day and the difference between a
      missing medical history and the text "1": two drafts that give the same
      values agree on every other field and on the rendered date. */
  lemma {:induction false} InsertKeepsEveryValue(d1: Draft, d2: Draft, dateString: Date -> string)
    requires Submittable(d1) && Submittable(d2)
    requires InsertParams(d1, dateString) == InsertParams(d2, dateString)
    ensures d1.(dateOfBirth := None, medicalHistory := None) == d2.(dateOfBirth := None, medicalHistory := None)
    ensures dateString(d1.dateOfBirth.value) == dateString(d2.dateOfBirth.value)
    ensures d1.medicalHistory.Some? && d2.medicalHistory.Some? ==> d1.medicalHistory == d2.medicalHistory
  {
    var p1, p2 := InsertParams(d1, dateString), InsertParams(d2, dateString);
    assert p1[0] == p2[0] && p1[1] == p2[1] && p1[2] == p2[2] && p1[3] == p2[3] && p1[4] == p2[4];
    assert p1[5] == p2[5] && p1[6] == p2[6] && p1[7] == p2[7] && p1[8] == p2[8] && p1[9] == p2[9];
    assert p1[10] == p2[10] && p1[11] == p2[11] && p1[12] == p2[12] && p1[13] == p2[13] && p1[14] == p2[14];
  }

  /** The two drafts the fallback cannot tell apart. */
  lemma FallbackConflates(d: Draft, dateString: Date -> string)
    requires Submittable(d)
    ensures InsertParams(d.(medicalHistory := None), dateString) == InsertParams(d.(medicalHistory := Some("1")), dateString)
  {
  }
}
