/** Pieces both versions of the component share: how a subclass defines
    the members the base constructor looks for, the `{immutableState: v}`
    state wrapper, the `sideEffects && ...` test of the completion callback
    (the current version then calls `sideEffects(this)`, the older one
    `sideEffects()`), the action a sender builds, and the outcome of one
    `send`. */
module Protocol {
  import opened JsValues
  import opened Host

  /** How a subclass defines an instance member such as `reducer` or
      `displayName`: not at all (or, for a function, as something that is
      not one), on its prototype (a method), or as a class field. A class
      field is assigned only once the base constructor has returned, so
      what the base constructor reads of `this.m` sees prototype members
      only, while code that runs later (`send`, `setState`) sees both. */
  datatype Member<+T> = Absent | Method(value: T) | ClassField(value: T)
  {
    /** `this.m` is there once construction is over. */
    predicate Defined() { !Absent? }

    /** `this.m` is there while the base constructor runs. */
    predicate SeenByBase() { Method? }
  }

  /** A reducer `(action, state) => result`. */
  type Reducer = (JsValue, JsValue) -> JsValue

  /** What the updater leaves behind: the value it returns to the host and
      the `sideEffects` variable it assigned (`undefined` when untouched). */
  datatype Staged = Staged(returned: JsValue, sideEffects: JsValue)

  const IMMUTABLE_STATE: string := "immutableState"

  /** `{immutableState: v}`: how a non-plain value is kept in the host's
      state slot. */
  function Wrap(v: JsValue): (w: JsValue)
    ensures w.Object? && w.props.Keys == {IMMUTABLE_STATE}
    ensures Get(w, IMMUTABLE_STATE) == Some(v)
    ensures !IsNullish(w) && Truthy(w)
  {
    Object(map[IMMUTABLE_STATE := v])
  }

  /** Wrapping is injective: the wrapped value can always be read back, so a
      state is never wrapped twice by mistake without showing it. */
  lemma WrapInjective(v: JsValue, v': JsValue)
    ensures Wrap(v) == Wrap(v') <==> v == v'
    ensures Wrap(v) != v
  {
    if Wrap(v) == Wrap(v') {
      assert Get(Wrap(v), IMMUTABLE_STATE) == Get(Wrap(v'), IMMUTABLE_STATE);
    }
    WrapLarger(v);
  }

  lemma WrapLarger(v: JsValue)
    ensures Wrap(v) != v
  {
    assert v in Wrap(v).props.Values;
  }

  /** The state the updater passes to the reducer: in wrapped mode the
      value under `immutableState`, otherwise the slot itself. */
  function Given(wrapped: bool, slot: JsValue): JsValue
    requires wrapped ==> !IsNullish(slot)
  {
    if wrapped then Prop(slot, IMMUTABLE_STATE) else slot
  }

  /** The `immutableState` getter. It exists only when the constructor chose
      the wrapped representation, and then reads `state.immutableState`
      (throwing when the slot is `null` or `undefined`); without it the
      property reads as `undefined`. */
  function ImmutableStateOf(wrapped: bool, slot: JsValue): (r: Option<JsValue>)
    ensures r.None? <==> wrapped && IsNullish(slot)
    ensures !wrapped ==> r == Some(Undefined)
    ensures wrapped && slot.Object? && IMMUTABLE_STATE in slot.props ==> r == Some(slot.props[IMMUTABLE_STATE])
    ensures wrapped && slot.Object? && IMMUTABLE_STATE !in slot.props ==> r == Some(Undefined)
  {
    if wrapped then Get(slot, IMMUTABLE_STATE) else Some(Undefined)
  }

  /** What the completion callback `sideEffects && sideEffects(...)` does
      with the staged `sideEffects`. */
  datatype Callback =
    | Skip           // falsy: nothing is called
    | Invoke(fn: nat) // a function: it is called once
    | NotCallable     // truthy but not a function: the call throws a TypeError

  function CallbackOf(sideEffects: JsValue): (cb: Callback)
    ensures cb.Skip? <==> !Truthy(sideEffects)
    ensures cb.Invoke? <==> sideEffects.Fn?
    ensures cb.Invoke? ==> cb.fn == sideEffects.id
  {
    if !Truthy(sideEffects) then Skip
    else if sideEffects.Fn? then Invoke(sideEffects.id)
    else NotCallable
  }

  /** The action that the sender `createSender(type)` dispatches when it is
      called with `args`: a Flux Standard Action `{type, payload}` whose
      payload is the first argument; the rest are ignored. */
  function FluxAction(actionType: JsValue, args: seq<JsValue>): (a: JsValue)
    ensures a.Object? && a.props.Keys == {"type", "payload"}
    ensures Get(a, "type") == Some(actionType)
    ensures |args| > 0 ==> Get(a, "payload") == Some(args[0])
    ensures |args| == 0 ==> Get(a, "payload") == Some(Undefined)
  {
    Object(map["type" := actionType, "payload" := if |args| > 0 then args[0] else Undefined])
  }

  /** Only the first argument reaches the action. */
  lemma SenderIgnoresExtraArguments(actionType: JsValue, payload: JsValue, rest: seq<JsValue>)
    ensures FluxAction(actionType, [payload] + rest) == FluxAction(actionType, [payload])
  {
  }

  /** The outcome of one `send`: the updater threw (nothing was committed),
      or the host committed the updater's result and then ran the completion
      callback. */
  datatype Outcome =
    | Aborted(error: Error)
    | Committed(commit: Commit, callback: Callback)
  {
    /** The state slot after the send. */
    function StateAfter(before: JsValue): JsValue {
      if Aborted? then before else commit.state
    }

    /** Re-renders the send caused. */
    function Renders(): nat {
      if Committed? && commit.rendered then 1 else 0
    }

    /** The side effect it called, if any. */
    function Called(): seq<nat> {
      if Committed? && callback.Invoke? then [callback.fn] else []
    }

    /** What the send threw, if anything: an updater error, or the TypeError
        of calling a staged side effect that is not a function. */
    function Thrown(): Option<Error> {
      if Aborted? then Some(error)
      else if callback.NotCallable? then Some(TypeError)
      else None
    }
  }
}
