/**
 * `facility_create_reducer`: the screen's form state and the three kinds of
 * action it is dispatched with. Every change replaces a whole record.
 */
module FacilityReducer {
  import opened FacilityForm

  /** The reducer's state: the values typed in and the per-field messages. */
  datatype State = State(form: Fields, errors: Fields)

  /** `initialState`: both records are copies of `initForm`. */
  const InitialState: State := State(InitForm, InitForm)

  /** `{type: "set_form", form}`, `{type: "set_error", errors}`, and any
      action of another type. */
  datatype Action = SetForm(form: Fields) | SetError(errors: Fields) | Unrecognised

  /** The reducer: `set_form` replaces the form, `set_error` replaces the
      errors, anything else returns the state it was given. */
  function Reduce(s: State, a: Action): (r: State)
    ensures a.SetForm? ==> r.form == a.form && r.errors == s.errors
    ensures a.SetError? ==> r.errors == a.errors && r.form == s.form
    ensures a.Unrecognised? ==> r == s
  {
    match a
    case SetForm(f) => s.(form := f)
    case SetError(e) => s.(errors := e)
    case Unrecognised => s
  }

  /** The state reached by dispatching `actions` in order, starting at `s`. */
  function Run(s: State, actions: seq<Action>): State
    decreases |actions|
  {
    if actions == [] then s else Run(Reduce(s, actions[0]), actions[1..])
  }

  /** The form carried by the last `set_form` in `actions`, or `init` if
      there is none. */
  function LatestForm(init: Fields, actions: seq<Action>): Fields
    decreases |actions|
  {
    if actions == [] then init
    else if actions[|actions| - 1].SetForm? then actions[|actions| - 1].form
    else LatestForm(init, actions[..|actions| - 1])
  }

  /** The errors carried by the last `set_error` in `actions`, or `init` if
      there is none. */
  function LatestErrors(init: Fields, actions: seq<Action>): Fields
    decreases |actions|
  {
    if actions == [] then init
    else if actions[|actions| - 1].SetError? then actions[|actions| - 1].errors
    else LatestErrors(init, actions[..|actions| - 1])
  }

  /** Dispatching a whole sequence of actions and then one more is the same
      as dispatching the longer sequence. */
  lemma {:induction false} RunSnoc(s: State, actions: seq<Action>, a: Action)
    ensures Run(s, actions + [a]) == Reduce(Run(s, actions), a)
    decreases |actions|
  {
    if actions == [] {
      assert actions + [a] == [a];
      assert [a][1..] == [];
    } else {
      assert (actions + [a])[0] == actions[0];
      assert (actions + [a])[1..] == actions[1..] + [a];
      RunSnoc(Reduce(s, actions[0]), actions[1..], a);
    }
  }

  /** Replace-all updates never interfere: after any sequence of dispatches
      the form is the one from the latest `set_form` and the errors are the
      ones from the latest `set_error`; other actions have no effect. */
  lemma {:induction false} RunKeepsLatest(s: State, actions: seq<Action>)
    ensures Run(s, actions).form == LatestForm(s.form, actions)
    ensures Run(s, actions).errors == LatestErrors(s.errors, actions)
    decreases |actions|
  {
    if actions != [] {
      var front, last := actions[..|actions| - 1], actions[|actions| - 1];
      assert actions == front + [last];
      RunSnoc(s, front, last);
      RunKeepsLatest(s, front);
    }
  }
}
