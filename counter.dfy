/** The counter application's state and its reducer. */
module Counter {
  import opened Actions

  const INCREASE := "INCREASE"
  const DECREASE := "DECREASE"

  /** The fields of a state other than `counter`. */
  type Fields = m: map<string, Value> | "counter" !in m witness map[]

  /** A state record: the integer `counter` and whatever other fields it carries. */
  datatype State = State(counter: int, others: Fields)

  /** `initialState`, the record `{ counter: 0 }`. */
  const InitialState := State(0, map[])

  /** The actions the counter view dispatches. */
  const IncreaseAction := Obj(map["type" := Str(INCREASE)])
  const DecreaseAction := Obj(map["type" := Str(DECREASE)])

  /** `reducer`: an INCREASE action yields a copy of the state whose counter is one
      higher, a DECREASE action one whose counter is one lower; any other tag,
      a missing one included, yields the state itself. The other fields are
      copied unchanged in every case. Reading `action.type` throws on undefined
      and null, so those are excluded. */
  function Reducer(state: State, action: Value): (r: State)
    requires action != Undefined && action != Null
    ensures r.others == state.others
    ensures TypeField(action) == Str(INCREASE) ==> r.counter == state.counter + 1
    ensures TypeField(action) == Str(DECREASE) ==> r.counter == state.counter - 1
    ensures TypeField(action) != Str(INCREASE) && TypeField(action) != Str(DECREASE) ==> r == state
  {
    var counter := state.counter;
    var tag := TypeField(action);
    if tag == Str(INCREASE) then
      state.(counter := counter + 1)
    else if tag == Str(DECREASE) then
      state.(counter := counter - 1)
    else
      state
  }

  /** The reducer in the form a store takes it: over validated actions. */
  const StoreReducer: (State, Action) -> State := (s: State, a: Action) => Reducer(s, a)

  /** The two tags are distinct, the initial counter is 0, and both actions the
      counter view dispatches pass validation carrying their own tag. */
  lemma CounterConstants()
    ensures INCREASE != DECREASE
    ensures InitialState.counter == 0 && InitialState.others == map[]
    ensures ValidateAction(IncreaseAction) == Pass && TypeField(IncreaseAction) == Str(INCREASE)
    ensures ValidateAction(DecreaseAction) == Pass && TypeField(DecreaseAction) == Str(DECREASE)
  {
  }

  /** INCREASE and DECREASE undo each other, whichever comes first. */
  lemma IncreaseDecreaseInverse(state: State)
    ensures Reducer(Reducer(state, IncreaseAction), DecreaseAction) == state
    ensures Reducer(Reducer(state, DecreaseAction), IncreaseAction) == state
  {
  }
}
