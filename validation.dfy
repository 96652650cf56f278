/**
 * `validateForm`: the required-field check and the two format checks, applied
 * to every field in turn, yielding one message per field and a verdict.
 */
module FacilityValidation {
  import opened FacilityForm

  /** The two format checks the form relies on. They are defined elsewhere in
      the application, so the model takes them as given predicates and
      proves everything below for every choice of them. */
  datatype Checks = Checks(
    phonePreg: string -> bool,
    validCoordinates: string -> bool)

  const Required: string := "Field is required"
  const PhoneMessage: string := "Please Enter 10/11 digit mobile number or landline as 0<std code><phone number>"
  const CoordinatesMessage: string := "Please enter valid coordinates"

  /** The fields that carry a coordinate. */
  predicate IsCoordinate(f: Field)
  {
    f == Latitude || f == Longitude
  }

  /** The message the rule chain gives field `f`: the required check first,
      then the phone check, then the coordinate check; `""` when every rule
      that applies is passed. */
  function FieldError(form: Fields, f: Field, checks: Checks): (e: string)
    ensures e == Required <==> form.Get(f) == ""
    ensures e == "" <==>
      form.Get(f) != ""
      && (f == PhoneNumber ==> checks.phonePreg(form.Get(f)))
      && (IsCoordinate(f) ==> checks.validCoordinates(form.Get(f)))
    ensures e == PhoneMessage ==> f == PhoneNumber
    ensures e == CoordinatesMessage ==> IsCoordinate(f)
    ensures e in {"", Required, PhoneMessage, CoordinatesMessage}
  {
    if form.Get(f) == "" then Required
    else if f == PhoneNumber && !checks.phonePreg(form.phoneNumber) then PhoneMessage
    else if IsCoordinate(f) && !checks.validCoordinates(form.Get(f)) then CoordinatesMessage
    else ""
  }

  /** The error record a validation pass publishes. */
  function ErrorsOf(form: Fields, checks: Checks): (errors: Fields)
    ensures forall f :: errors.Get(f) == FieldError(form, f, checks)
  {
    Fields(
      FieldError(form, Name, checks),
      FieldError(form, District, checks),
      FieldError(form, Address, checks),
      FieldError(form, PhoneNumber, checks),
      FieldError(form, Latitude, checks),
      FieldError(form, Longitude, checks))
  }

  /** When the form may be submitted: no field is empty, the phone number
      passes the phone check and both coordinates pass the coordinate check. */
  predicate Submittable(form: Fields, checks: Checks)
  {
    && form.name != ""
    && form.district != ""
    && form.address != ""
    && form.phoneNumber != ""
    && form.latitude != ""
    && form.longitude != ""
    && checks.phonePreg(form.phoneNumber)
    && checks.validCoordinates(form.latitude)
    && checks.validCoordinates(form.longitude)
  }

  /** The verdict and the error record agree: the form may be submitted
      exactly when no field has a message, that is, when the published
      errors are the all-empty `initForm`. */
  lemma SubmittableIffNoErrors(form: Fields, checks: Checks)
    ensures Submittable(form, checks) <==> forall f :: FieldError(form, f, checks) == ""
    ensures Submittable(form, checks) <==> ErrorsOf(form, checks) == InitForm
  {
    var e := ErrorsOf(form, checks);
    assert e.Get(Name) == FieldError(form, Name, checks);
    assert e.Get(District) == FieldError(form, District, checks);
    assert e.Get(Address) == FieldError(form, Address, checks);
    assert e.Get(PhoneNumber) == FieldError(form, PhoneNumber, checks);
    assert e.Get(Latitude) == FieldError(form, Latitude, checks);
    assert e.Get(Longitude) == FieldError(form, Longitude, checks);
    FieldsEqual(e, InitForm);
  }

  /** An empty field is reported as required, whatever the format checks
      would say about it. */
  lemma RequiredTakesPrecedence(form: Fields, f: Field, checks: Checks, other: Checks)
    requires form.Get(f) == ""
    ensures ErrorsOf(form, checks).Get(f) == Required
    ensures ErrorsOf(form, checks).Get(f) == ErrorsOf(form, other).Get(f)
  {
  }

  /** The loop of `validateForm`: start from a copy of `initForm`, walk the
      fields, write each failing field's message and raise the invalid flag. */
  method ComputeErrors(form: Fields, checks: Checks) returns (errors: Fields, valid: bool)
    ensures errors == ErrorsOf(form, checks)
    ensures valid == Submittable(form, checks)
    ensures valid <==> errors == InitForm
  {
    errors := InitForm;
    var invalidForm := false;
    for i := 0 to |FieldOrder|
      invariant forall f :: errors.Get(f) == if f in FieldOrder[..i] then FieldError(form, f, checks) else ""
      invariant invalidForm <==> exists f :: f in FieldOrder[..i] && FieldError(form, f, checks) != ""
    {
      var field := FieldOrder[i];
      assert FieldOrder[..i + 1] == FieldOrder[..i] + [field];
      if form.Get(field) == "" {
        errors := errors.With(field, Required);
        invalidForm := true;
      } else if field == PhoneNumber && !checks.phonePreg(form.phoneNumber) {
        errors := errors.With(field, PhoneMessage);
        invalidForm := true;
      } else if IsCoordinate(field) && !checks.validCoordinates(form.Get(field)) {
        errors := errors.With(field, CoordinatesMessage);
        invalidForm := true;
      }
    }
    assert FieldOrder[..|FieldOrder|] == FieldOrder;
    forall f ensures errors.Get(f) == ErrorsOf(form, checks).Get(f) {
      FieldOrderComplete(f);
    }
    FieldsEqual(errors, ErrorsOf(form, checks));
    SubmittableIffNoErrors(form, checks);
    if !invalidForm {
      forall f ensures FieldError(form, f, checks) == "" {
        FieldOrderComplete(f);
      }
    }
    valid := !invalidForm;
  }
}
