/** What `send` on a `Re(Component)` instance does for each reducer result,
    the errors it raises, the wrapped-state round trip, and the behaviour of
    a sequence of sends (src/re.js). */
module ReProperties {
  import opened JsValues
  import opened Host
  import opened Protocol
  import UpdateTypes
  import opened Re

  // ---------------------------------------------------------------------
  // Construction

  /** Construction fails in development exactly when there is no static
      reducer and no reducer method, with the component's name; a reducer
      method draws exactly one deprecation warning naming the component;
      production checks and warns nothing. */
  lemma ConstructionChecks(cls: ComponentClass, dev: bool)
    ensures ConstructionError(cls, dev).Some? <==> dev && cls.staticReducer.None? && !cls.propertyReducer.Method?
    ensures ConstructionError(cls, dev).Some? ==> ConstructionError(cls, dev).value == NoReducer(NameInBase(cls))
    ensures |ConstructionWarnings(cls, dev)| == (if dev && cls.propertyReducer.Method? then 1 else 0)
    ensures forall w <- ConstructionWarnings(cls, dev) :: w == DeprecatedPropertyReducer(NameInBase(cls))
  {
  }

  /** A reducer assigned as a class field does not exist yet while the base
      constructor runs: on its own it fails the development check, and next
      to a static reducer it draws no warning. Every `send` still calls it. */
  lemma ClassFieldReducer(cls: ComponentClass, action: JsValue, given: JsValue)
    requires cls.propertyReducer.ClassField?
    ensures cls.staticReducer.None? ==> ConstructionError(cls, true) == Some(NoReducer(NameInBase(cls)))
    ensures ConstructionWarnings(cls, true) == []
    ensures Reduce(cls, action, given) == Ok(cls.propertyReducer.value(action, given))
  {
  }

  /** A `displayName` assigned as a class field is read twice with different
      results: the constructor's errors and warning name the class, while
      every later error (`send`, `setState`) uses the field. */
  lemma ClassFieldDisplayName(cls: ComponentClass)
    requires cls.displayName.ClassField? && cls.displayName.value != []
    ensures NameInBase(cls) == cls.className
    ensures Name(cls) == cls.displayName.value
    ensures ConstructionError(cls, true).Some? ==> ConstructionError(cls, true).value == NoReducer(cls.className)
  {
  }

  /** An `initialImmutableState` assigned as a class field is never seen:
      the state is not wrapped and the getter is not defined. */
  lemma ClassFieldInitializerIgnored(cls: ComponentClass, props: JsValue)
    requires cls.initialImmutableState.ClassField? && cls.ownState.None?
    ensures InitialState(cls, props) == Undefined
    ensures ImmutableStateOf(cls.initialImmutableState.SeenByBase(), InitialState(cls, props)) == Some(Undefined)
  {
  }

  /** With an `initialImmutableState` method (and no state of the subclass's own) the
      slot holds `{immutableState: init(props)}`, and the getter reads the
      initial value back. */
  lemma InitialImmutableStateReadable(cls: ComponentClass, props: JsValue)
    requires cls.initialImmutableState.Method? && cls.ownState.None?
    ensures InitialState(cls, props) == Wrap(cls.initialImmutableState.value(props))
    ensures ImmutableStateOf(true, InitialState(cls, props)) == Some(cls.initialImmutableState.value(props))
  {
  }

  /** The property reducer, when there is one, is the one every `send`
      calls, whatever the static reducer is. */
  lemma PropertyReducerTakesPrecedence(cls: ComponentClass, action: JsValue, given: JsValue)
    requires cls.propertyReducer.Defined()
    ensures Reduce(cls, action, given) == Ok(cls.propertyReducer.value(action, given))
    ensures Reduce(cls, action, given) == Reduce(cls.(staticReducer := None), action, given)
  {
  }

  // ---------------------------------------------------------------------
  // One send, plain state

  /** NoUpdate: the updater returns `null`, so nothing is replaced, nothing
      re-renders and nothing is called. */
  lemma SendNoUpdate(cls: ComponentClass, dev: bool, slot: JsValue, action: JsValue)
    requires Reduce(cls, action, slot) == Ok(UpdateTypes.NoUpdate())
    ensures SendSpec(cls, dev, false, slot, action) == Committed(Commit(slot, false), Skip)
  {
  }

  /** Update(s): the updater returns `s`, which becomes the state with one
      re-render (unless `s` is `null` or `undefined`, which the host
      ignores); no side effect runs. */
  lemma SendUpdate(cls: ComponentClass, dev: bool, slot: JsValue, action: JsValue, s: JsValue)
    requires Reduce(cls, action, slot) == Ok(UpdateTypes.Update(s))
    ensures SendSpec(cls, dev, false, slot, action) == Committed(Apply(slot, s), Skip)
    ensures !IsNullish(s) ==> SendSpec(cls, dev, false, slot, action) == Committed(Commit(s, true), Skip)
  {
  }

  /** SideEffects(f): no replacement and no re-render; `f` is called once,
      after the commit. */
  lemma SendSideEffects(cls: ComponentClass, dev: bool, slot: JsValue, action: JsValue, f: nat)
    requires Reduce(cls, action, slot) == Ok(UpdateTypes.SideEffects(Fn(f)))
    ensures SendSpec(cls, dev, false, slot, action) == Committed(Commit(slot, false), Invoke(f))
  {
  }

  /** UpdateWithSideEffects(s, f): `s` becomes the state with one re-render
      (unless it is `null` or `undefined`), then `f` is called once. */
  lemma SendUpdateWithSideEffects(cls: ComponentClass, dev: bool, slot: JsValue, action: JsValue, s: JsValue, f: nat)
    requires Reduce(cls, action, slot) == Ok(UpdateTypes.UpdateWithSideEffects(s, Fn(f)))
    ensures SendSpec(cls, dev, false, slot, action) == Committed(Apply(slot, s), Invoke(f))
    ensures !IsNullish(s) ==> SendSpec(cls, dev, false, slot, action) == Committed(Commit(s, true), Invoke(f))
  {
  }

  /** Every result a constructor builds takes a non-default branch of the
      switch: it never raises the invalid-result error, in any mode. */
  lemma EveryConstructorHandled(dev: bool, name: string, given: JsValue, s: JsValue, f: JsValue)
    ensures UpdateTypes.HasKnownTag(UpdateTypes.NoUpdate()) && UpdateTypes.HasKnownTag(UpdateTypes.Update(s))
    ensures UpdateTypes.HasKnownTag(UpdateTypes.SideEffects(f)) && UpdateTypes.HasKnownTag(UpdateTypes.UpdateWithSideEffects(s, f))
    ensures Interpret(dev, name, UpdateTypes.NoUpdate(), given) == Ok(Staged(Null, Undefined))
    ensures Interpret(dev, name, UpdateTypes.Update(s), given) == Ok(Staged(s, Undefined))
    ensures Interpret(dev, name, UpdateTypes.SideEffects(f), given) == Ok(Staged(Null, f))
    ensures Interpret(dev, name, UpdateTypes.UpdateWithSideEffects(s, f), given) == Ok(Staged(s, f))
  {
  }

  // ---------------------------------------------------------------------
  // Errors

  /** In development, a reducer that returns `undefined` makes `send` throw
      the error naming the component; nothing is committed. In production
      the same result fails on the read of `reduced.type`. */
  lemma UndefinedResultThrows(cls: ComponentClass, dev: bool, wrapped: bool, slot: JsValue, action: JsValue)
    requires wrapped ==> !IsNullish(slot)
    requires Reduce(cls, action, Given(wrapped, slot)) == Ok(Undefined)
    ensures dev ==> SendSpec(cls, dev, wrapped, slot, action) == Aborted(ReturnedUndefined(Name(cls)))
    ensures !dev ==> SendSpec(cls, dev, wrapped, slot, action) == Aborted(TypeError)
  {
  }

  /** A result that is an object (or primitive) without one of the four tags
      throws the invalid-result error in development; in production it is
      let through and the updater returns the state it was given, which the
      host stores back with a re-render. */
  lemma UnknownTag(cls: ComponentClass, dev: bool, wrapped: bool, slot: JsValue, action: JsValue, reduced: JsValue)
    requires wrapped ==> !IsNullish(slot)
    requires Reduce(cls, action, Given(wrapped, slot)) == Ok(reduced)
    requires !IsNullish(reduced) && !UpdateTypes.HasKnownTag(reduced)
    ensures dev ==> SendSpec(cls, dev, wrapped, slot, action) == Aborted(InvalidResult(Name(cls)))
    ensures !dev && !wrapped ==> SendSpec(cls, dev, wrapped, slot, action) == Committed(Apply(slot, slot), Skip)
    ensures !dev && wrapped ==> SendSpec(cls, dev, wrapped, slot, action) == Committed(Commit(Wrap(Given(wrapped, slot)), true), Skip)
  {
    var tag := Prop(reduced, "type");
    assert tag != Num(UpdateTypes.NO_UPDATE) && tag != Num(UpdateTypes.UPDATE);
    assert tag != Num(UpdateTypes.SIDE_EFFECTS) && tag != Num(UpdateTypes.UPDATE_WITH_SIDE_EFFECTS);
  }

  /** Without any reducer (only possible in production, where the
      constructor does not check) every `send` throws a TypeError. */
  lemma MissingReducerThrowsOnSend(cls: ComponentClass, wrapped: bool, slot: JsValue, action: JsValue)
    requires cls.staticReducer.None? && cls.propertyReducer.Absent?
    ensures ConstructionError(cls, true).Some?
    ensures SendSpec(cls, false, wrapped, slot, action) == Aborted(TypeError)
  {
  }

  // ---------------------------------------------------------------------
  // Wrapped state

  /** The wrapper adds exactly one layer: a wrapped send fails as the plain
      updater on the unwrapped value fails, and otherwise commits
      `{immutableState: x}`, with a re-render, where `x` is what the plain
      updater returns, and runs the same callback. */
  lemma WrappedSendWrapsOnce(cls: ComponentClass, dev: bool, slot: JsValue, action: JsValue)
    requires !IsNullish(slot)
    ensures var inner := Updater(cls, dev, false, action, Prop(slot, IMMUTABLE_STATE));
      && (inner.Err? ==> SendSpec(cls, dev, true, slot, action) == Aborted(inner.error))
      && (inner.Ok? ==> SendSpec(cls, dev, true, slot, action)
                        == Committed(Commit(Wrap(inner.value.returned), true), CallbackOf(inner.value.sideEffects)))
  {
  }

  /** In wrapped mode the reducer sees the unwrapped value and its update
      is wrapped exactly once: the slot becomes `{immutableState: v}` and the
      getter returns `v`. */
  lemma WrappedUpdateRoundTrip(cls: ComponentClass, dev: bool, slot: JsValue, action: JsValue, v: JsValue)
    requires !IsNullish(slot)
    requires Reduce(cls, action, Prop(slot, IMMUTABLE_STATE)) == Ok(UpdateTypes.Update(v))
    ensures SendSpec(cls, dev, true, slot, action) == Committed(Commit(Wrap(v), true), Skip)
    ensures ImmutableStateOf(true, SendSpec(cls, dev, true, slot, action).StateAfter(slot)) == Some(v)
  {
  }

  /** In wrapped mode the wrapper wraps the `null` that NoUpdate and
      SideEffects return: the slot becomes `{immutableState: null}`, with a
      re-render, and the getter then reads `null` instead of the old value. */
  lemma WrappedNoUpdateStoresNull(cls: ComponentClass, dev: bool, slot: JsValue, action: JsValue, f: JsValue)
    requires !IsNullish(slot)
    requires Reduce(cls, action, Prop(slot, IMMUTABLE_STATE)) in {Ok(UpdateTypes.NoUpdate()), Ok(UpdateTypes.SideEffects(f))}
    ensures SendSpec(cls, dev, true, slot, action).Committed?
    ensures SendSpec(cls, dev, true, slot, action).commit == Commit(Wrap(Null), true)
    ensures ImmutableStateOf(true, SendSpec(cls, dev, true, slot, action).StateAfter(slot)) == Some(Null)
  {
  }

  // ---------------------------------------------------------------------
  // Sequences of sends

  /** What a sequence of sends adds up to: the final slot, the re-renders,
      the side effects called (in order) and the errors thrown (in order). */
  datatype Trace = Trace(state: JsValue, renders: nat, called: seq<nat>, thrown: seq<Error>)

  function Thrown(o: Outcome): seq<Error> {
    if o.Thrown().Some? then [o.Thrown().value] else []
  }

  /** Sends `actions` one after another; each reducer call sees the state
      the previous send left behind. */
  function Run(cls: ComponentClass, dev: bool, wrapped: bool, slot: JsValue, actions: seq<JsValue>): Trace
    decreases |actions|
  {
    if actions == [] then Trace(slot, 0, [], [])
    else
      var o := SendSpec(cls, dev, wrapped, slot, actions[0]);
      var rest := Run(cls, dev, wrapped, o.StateAfter(slot), actions[1..]);
      Trace(rest.state, o.Renders() + rest.renders, o.Called() + rest.called, Thrown(o) + rest.thrown)
  }

  /** A reducer that answers NoUpdate to everything never causes a
      re-render, however many actions are sent, and leaves the state as it
      was. */
  lemma {:induction false} NoUpdateNeverRenders(cls: ComponentClass, dev: bool, slot: JsValue, actions: seq<JsValue>)
    requires forall a, g :: Reduce(cls, a, g) == Ok(UpdateTypes.NoUpdate())
    ensures Run(cls, dev, false, slot, actions) == Trace(slot, 0, [], [])
  {
    if actions != [] {
      SendNoUpdate(cls, dev, slot, actions[0]);
      NoUpdateNeverRenders(cls, dev, slot, actions[1..]);
    }
  }

  /** A reducer that answers SideEffects(f) to everything calls `f` once per
      send and never re-renders. */
  lemma {:induction false} SideEffectsCallOncePerSend(cls: ComponentClass, dev: bool, slot: JsValue, actions: seq<JsValue>, f: nat)
    requires forall a, g :: Reduce(cls, a, g) == Ok(UpdateTypes.SideEffects(Fn(f)))
    ensures Run(cls, dev, false, slot, actions).state == slot
    ensures Run(cls, dev, false, slot, actions).renders == 0
    ensures Run(cls, dev, false, slot, actions).called == seq(|actions|, _ => f)
    ensures Run(cls, dev, false, slot, actions).thrown == []
  {
    if actions != [] {
      SendSideEffects(cls, dev, slot, actions[0], f);
      SideEffectsCallOncePerSend(cls, dev, slot, actions[1..], f);
      assert [f] + seq(|actions| - 1, _ => f) == seq(|actions|, _ => f);
    }
  }

  // ---------------------------------------------------------------------
  // The click counter

  /** `{count: n}` */
  function CountState(n: int): JsValue {
    Object(map["count" := Num(n)])
  }

  /** `static reducer(action, state)`: `"CLICK"` answers
      `Update({count: state.count + 1})`; any other action is left
      unhandled (the reducer returns `undefined`). It is meant for count
      states `{count: n}` only: on any other state the test's reducer
      computes `NaN` or throws, which this one does not model and answers
      `undefined` instead. */
  function CounterReducer(action: JsValue, state: JsValue): JsValue {
    if Get(action, "type") == Some(Str("CLICK")) then
      match Get(state, "count")
      case Some(Num(n)) => UpdateTypes.Update(CountState(n + 1))
      case _ => Undefined
    else
      Undefined
  }

  /** The counter component: a static reducer and `this.state = {count: 0}`
      set by its own constructor. */
  function Counter(): ComponentClass {
    ComponentClass(Absent, "Counter", Some(CounterReducer), Absent, Absent, Some(CountState(0)))
  }

  lemma CounterStep(dev: bool, k: int, action: JsValue)
    requires Get(action, "type") == Some(Str("CLICK"))
    ensures SendSpec(Counter(), dev, false, CountState(k), action) == Committed(Commit(CountState(k + 1), true), Skip)
  {
    assert Get(CountState(k), "count") == Some(Num(k));
    SendUpdate(Counter(), dev, CountState(k), action, CountState(k + 1));
  }

  /** When each action takes `{count: j}` to `{count: j + 1}` with one
      re-render and nothing else, whatever `j` is, a run of them counts:
      from `{count: k}`, n actions give `{count: k + n}` and n re-renders. */
  lemma {:induction false} IncrementsAddUp(cls: ComponentClass, dev: bool, k: int, actions: seq<JsValue>)
    requires forall j: int, a <- actions :: SendSpec(cls, dev, false, CountState(j), a) == Committed(Commit(CountState(j + 1), true), Skip)
    ensures Run(cls, dev, false, CountState(k), actions) == Trace(CountState(k + |actions|), |actions|, [], [])
    decreases |actions|
  {
    if actions != [] {
      assert actions[0] in actions;
      assert forall a <- actions[1..] :: a in actions;
      IncrementsAddUp(cls, dev, k + 1, actions[1..]);
    }
  }

  /** Each click adds one to the count and re-renders once: from
      `{count: k}`, n clicks give `{count: k + n}` and n re-renders. */
  lemma CounterCounts(dev: bool, k: int, clicks: seq<JsValue>)
    requires forall a <- clicks :: Get(a, "type") == Some(Str("CLICK"))
    ensures Run(Counter(), dev, false, CountState(k), clicks) == Trace(CountState(k + |clicks|), |clicks|, [], [])
  {
    forall j: int, a <- clicks
      ensures SendSpec(Counter(), dev, false, CountState(j), a) == Committed(Commit(CountState(j + 1), true), Skip)
    {
      CounterStep(dev, j, a);
    }
    IncrementsAddUp(Counter(), dev, k, clicks);
  }

  /** The counter on a real instance: mounted in development mode, each
      click through `createSender("CLICK")` counts one, and a direct
      `setState` throws and leaves the count alone. */
  method ClickCounter() returns (afterOne: JsValue, afterTwo: JsValue, direct: Option<Error>, afterDirect: JsValue)
    ensures afterOne == CountState(1) && afterTwo == CountState(2)
    ensures direct == Some(SetStateNotAllowed("Counter")) && afterDirect == CountState(2)
  {
    var r := Construct(Counter(), Undefined, true);
    var c := r.value;
    var event := Object(map[]);
    CounterStep(true, 0, FluxAction(Str("CLICK"), [event]));
    var thrown := c.CallSender(Str("CLICK"), [event]);
    afterOne := c.state;
    CounterStep(true, 1, FluxAction(Str("CLICK"), [event]));
    thrown := c.CallSender(Str("CLICK"), [event]);
    afterTwo := c.state;
    direct := c.SetState(CountState(100));
    afterDirect := c.state;
  }
}
