/** The host UI framework, reduced to what the dispatch core uses: the
    state slot, the functional `setState(updater, callback)` and the errors
    that unwind out of it. */
module Host {
  import opened JsValues

  /** What the core throws. `TypeError` is JavaScript's own (a property read
      of `null`/`undefined`, a call of something that is not a function); the
      others are the library's errors, each naming the component. */
  datatype Error =
    | TypeError
    | NoReducer(component: string)
    | SetStateNotAllowed(component: string)
    | ReturnedUndefined(component: string)
    | InvalidResult(component: string)

  /** The deprecation warning for a class-property reducer. */
  datatype Warning = DeprecatedPropertyReducer(component: string)

  datatype Result<+T> = Ok(value: T) | Err(error: Error)

  /** What the host makes of one updater result: the new state slot and
      whether it was replaced (which schedules one re-render). */
  datatype Commit = Commit(state: JsValue, rendered: bool)

  /** `setState` with an updater that returned `returned`: `null` or
      `undefined` leaves the slot alone and renders nothing; any other value
      replaces the slot and renders once. */
  function Apply(current: JsValue, returned: JsValue): (c: Commit)
    ensures c.rendered <==> !IsNullish(returned)
    ensures c.state == (if IsNullish(returned) then current else returned)
  {
    if IsNullish(returned) then Commit(current, false) else Commit(returned, true)
  }
}
