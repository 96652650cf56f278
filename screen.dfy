/**
 * The facility-creation screen: the reducer state, the loading flag, the
 * notification, and the three handlers that drive them. Calls to the
 * creation service and navigations are recorded in the order they happen.
 */
module FacilityCreate {
  import opened FacilityForm
  import opened FacilityReducer
  import opened FacilityValidation
  import opened FacilitySubmission

  class Screen {
    /** The phone and coordinate format checks in force. */
    const checks: Checks
    /** The identifier of the hospital facility type. */
    const hospitalType: int

    var state: State
    var isLoading: bool
    var appMessage: AppMessage
    /** Every payload handed to the creation service, oldest first. */
    var requests: seq<Payload>
    /** Every path navigated to, oldest first. */
    var navigations: seq<string>

    /** A freshly mounted screen: empty form, no errors, not loading, no
        notification, nothing sent and nowhere navigated. */
    constructor (checks: Checks, hospitalType: int)
      ensures this.checks == checks && this.hospitalType == hospitalType
      ensures state == InitialState && !isLoading && appMessage == HiddenMessage
      ensures requests == [] && navigations == []
    {
      this.checks := checks;
      this.hospitalType := hospitalType;
      state := InitialState;
      isLoading := false;
      appMessage := HiddenMessage;
      requests := [];
      navigations := [];
    }

    /** An edit of one input: copy the form, overwrite the named field and
        dispatch `set_form`. Only that field changes; the errors and the rest
        of the screen are untouched. */
    method HandleChange(field: Field, value: string)
      modifies this
      ensures state.form.Get(field) == value
      ensures forall g :: g != field ==> state.form.Get(g) == old(state.form).Get(g)
      ensures state.errors == old(state.errors)
      ensures isLoading == old(isLoading) && appMessage == old(appMessage)
      ensures requests == old(requests) && navigations == old(navigations)
    {
      var form := state.form;
      form := form.With(field, value);
      state := Reduce(state, SetForm(form));
    }

    /** A validation pass: compute every field's message and the verdict,
        publish the messages with `set_error` on both outcomes, and return
        the verdict. The form itself is not modified. */
    method ValidateForm() returns (valid: bool)
      modifies this
      ensures valid == Submittable(old(state.form), checks)
      ensures state.form == old(state.form)
      ensures state.errors == ErrorsOf(old(state.form), checks)
      ensures isLoading == old(isLoading) && appMessage == old(appMessage)
      ensures requests == old(requests) && navigations == old(navigations)
    {
      var errors, ok := ComputeErrors(state.form, checks);
      if !ok {
        state := Reduce(state, SetError(errors));
        return false;
      }
      state := Reduce(state, SetError(errors));
      return true;
    }

    /** A submit. An invalid form only gets its messages published. A valid
        form sets the loading flag and is sent to the creation service
        exactly once. When the answer carries `data`, the loading flag is
        cleared, the whole state returns to its initial value, the success
        notification is shown and the screen navigates to the new
        facility's bed-add page. When it carries none, nothing else happens:
        the form is kept and the loading flag stays set. */
    method HandleSubmit(createFacility: Payload -> Response)
      modifies this
      ensures !Submittable(old(state.form), checks) ==>
        && state == State(old(state.form), ErrorsOf(old(state.form), checks))
        && isLoading == old(isLoading) && appMessage == old(appMessage)
        && requests == old(requests) && navigations == old(navigations)
      ensures Submittable(old(state.form), checks) ==>
        requests == old(requests) + [BuildPayload(old(state.form), hospitalType)]
      ensures (Submittable(old(state.form), checks)
               && createFacility(BuildPayload(old(state.form), hospitalType)).Data?) ==>
        && state == InitialState
        && !isLoading
        && appMessage == SuccessMessage
        && navigations == old(navigations)
             + [BedAddPath(createFacility(BuildPayload(old(state.form), hospitalType)).id)]
      ensures (Submittable(old(state.form), checks)
               && createFacility(BuildPayload(old(state.form), hospitalType)).NoData?) ==>
        && state == State(old(state.form), InitForm)
        && isLoading
        && appMessage == old(appMessage)
        && navigations == old(navigations)
    {
      var validated := ValidateForm();
      if validated {
        isLoading := true;
        var data := BuildPayload(state.form, hospitalType);
        var res := createFacility(data);
        requests := requests + [data];
        if res.Data? {
          var id := res.id;
          isLoading := false;
          state := Reduce(state, SetForm(InitForm));
          appMessage := SuccessMessage;
          navigations := navigations + [BedAddPath(id)];
        }
      }
    }
  }
}
