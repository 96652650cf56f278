# Facility creation form — a Dafny model

This project models the decision logic of the facility-creation screen
(`src/Components/Facility/FacilityCreate.tsx`). The screen collects six
values for a new facility: name, district, address, phone number, latitude and
longitude. It checks them on the client and sends them to the creation
service. On success it navigates to the new facility's bed-add page.

The model has five modules, one per part of the screen's logic:

- `FacilityForm` (`form.dfy`): the six-field record `Fields` used for both
  the form values and the per-field error messages, and the all-empty
  `InitForm`. `Get` and `With` give access by field name, as
  `form[name]` and `form[name] = value` do in the source.
- `FacilityReducer` (`reducer.dfy`): `facility_create_reducer` as the
  function `Reduce` over a `State` of form and errors, with the actions
  `SetForm`, `SetError` and `Unrecognised` (any other action type).
- `FacilityValidation` (`validation.dfy`): the rule chain of
  `validateForm` per field (`FieldError`), the error record of a pass
  (`ErrorsOf`), the verdict (`Submittable`), and the `forEach` loop itself
  as the method `ComputeErrors`, proved against those functions.
- `FacilitySubmission` (`submission.dfy`): the request payload
  (`BuildPayload`), the service's answer (`Response`), the notification
  values and the bed-add path (`BedAddPath`).
- `FacilityCreate` (`screen.dfy`): the component's mutable state as the class
  `Screen`, holding the reducer state, `isLoading`, the notification, and
  logs of the creation calls made and the paths navigated to. Its methods are
  `handleChange`, `validateForm` and `handleSubmit`. Each dispatch is an
  assignment `state := Reduce(state, action)`.

The two format checks `phonePreg` and `validateLocationCoordinates` are
defined in a file that is not part of this model. They are the
function-valued fields of a `Checks` value, and every property is proved for
every choice of them. The creation service is a parameter
`createFacility: Payload -> Response` of `HandleSubmit`. A `Response` either
carries `data` with an identifier (`Data(id)`) or does not (`NoData`).

What the code does on a response without `data`: it does nothing. The
loading flag set before the call stays set, so the screen keeps showing its
loading indicator. The form is kept as it was, and no failure message is
shown. There is no failure state and no retry path. The model follows the
code here (`HandleSubmit`'s last postcondition).

## Model

| member | source | states |
|---|---|---|
| `FacilityForm.Fields.With` | src/Components/Facility/FacilityCreate.tsx:81-83 | Overwriting one named field of a copy gives that field the new value and leaves every other field as it was. |
| `FacilityForm.FieldOrderComplete` | src/Components/Facility/FacilityCreate.tsx:15-22 | The fields of `initForm`, which the validator walks in declaration order, include every field of the form. |
| `FacilityReducer.Reduce` | src/Components/Facility/FacilityCreate.tsx:46-68 | `set_form` replaces the form and keeps the errors; `set_error` replaces the errors and keeps the form; any other action returns the state exactly as it was. |
| `FacilityReducer.RunKeepsLatest` | src/Components/Facility/FacilityCreate.tsx:46-67 | After any sequence of dispatches, the form is the one from the latest `set_form` (or the starting one) and the errors are those from the latest `set_error`; the two kinds of update never interfere, and other actions have no effect. |
| `FacilityValidation.FieldError` | src/Components/Facility/FacilityCreate.tsx:92-101 | A field gets "Field is required" exactly when it is empty. It gets no message exactly when it is non-empty and passes the phone check (phone number only) and the coordinate check (latitude and longitude only). The phone message only goes to the phone number and the coordinate message only to the coordinates; no other message is ever produced. |
| `FacilityValidation.ErrorsOf` | src/Components/Facility/FacilityCreate.tsx:89-102 | The published error record holds, for every field, that field's message from the rule chain; a field with no failing rule keeps the `""` it starts with as a copy of `initForm`. |
| `FacilityValidation.SubmittableIffNoErrors` | src/Components/Facility/FacilityCreate.tsx:88-109 | The verdict is true exactly when no field has a message, that is, exactly when the published errors equal the all-empty `initForm`. |
| `FacilityValidation.RequiredTakesPrecedence` | src/Components/Facility/FacilityCreate.tsx:92-101 | An empty field gets "Field is required" whatever the format checks say; its message is the same for every choice of format checks. |
| `FacilityValidation.ComputeErrors` | src/Components/Facility/FacilityCreate.tsx:88-102 | The validation loop yields the error record of the rule chain, and its verdict is false exactly when some field is empty, or the phone number fails the phone check, or the latitude or longitude fails the coordinate check; it is true exactly when the error record is all empty. |
| `FacilitySubmission.BuildPayload` | src/Components/Facility/FacilityCreate.tsx:116-126 | The payload has the hospital facility type, and carries every form value unchanged: name, district, address and phone number copied, latitude and longitude nested under `location`. |
| `FacilitySubmission.BedAddPath` | src/Components/Facility/FacilityCreate.tsx:133 | The navigation target is `/facility/` followed by the new identifier followed by `/bed/add`, and the identifier can be read back out of it. |
| `FacilitySubmission.BedAddPathInjective` | src/Components/Facility/FacilityCreate.tsx:129-133 | Two identifiers lead to the same page exactly when they are equal. |
| `FacilityCreate.Screen.constructor` | src/Components/Facility/FacilityCreate.tsx:24-27 | A mounted screen starts from `initialState`, not loading, with the notification hidden, no creation call and no navigation. |
| `FacilityCreate.Screen.HandleChange` | src/Components/Facility/FacilityCreate.tsx:80-86 | An edit sets only the named field to the new value; every other field, the errors and the rest of the screen are unchanged. |
| `FacilityCreate.Screen.ValidateForm` | src/Components/Facility/FacilityCreate.tsx:88-109 | Validation returns the verdict, publishes the error record in both the valid and the invalid branch, and leaves the form and the rest of the screen unchanged. |
| `FacilityCreate.Screen.HandleSubmit` | src/Components/Facility/FacilityCreate.tsx:111-136 | An invalid submit only publishes the errors: no creation call, no loading, no navigation. A valid submit sends exactly one payload, built from the form. If the answer has `data` with id `i`, the state returns to `initialState`, loading is off, the success notification is shown and the screen navigates once to `/facility/i/bed/add`. Without `data`, the form is unchanged, loading stays on, and there is no notification and no navigation. |

## Left out

- Layout, styling, the Material-UI widgets, and the rendering of the
  notification and of the loading indicator (lines 29-44 and 137-267): these
  are declarative UI with no decision logic.
- The bodies of `phonePreg` and `validateLocationCoordinates`: they are
  defined in a file that is not part of this model. They are kept as
  arbitrary predicates.
- `createFacility`, the redux `dispatchAction` and the `await`: a network call.
  It is replaced by the `createFacility` parameter, which gives the answer
  for the payload sent.
- `navigate`: only the target path is recorded, in `Screen.navigations`.
- The district list and the value of the hospital facility type: the district
  is an arbitrary string, and the type identifier is an `int` fixed when the
  screen is constructed.
- Double or re-entrant submission: both the form's `onSubmit` and the
  button's `onClick` call the submit handler (lines 142 and 259). That is event
  ordering of an asynchronous handler, not sequential logic. `HandleSubmit`
  models one complete, uninterrupted submit.
- `e.preventDefault()` and the event object: the field name and value of an
  edit are plain parameters of `HandleChange`.
- JavaScript truthiness: a field counts as empty exactly when it is the empty
  string. A non-string field value is not modelled, such as a numeric
  district identifier `0`, which JavaScript would also treat as empty.
- The reducer's default `state = initialState` argument: React always passes
  the current state, so `Reduce` always takes one.
- The identifier in a response is a string. Its conversion from the service's
  value inside the template literal is not modelled.
