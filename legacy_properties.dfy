/** What `send` on a `ReComponent` instance does (src/index.js), and how its
    constructor chooses between plain and wrapped state. */
module LegacyProperties {
  import opened JsValues
  import opened Host
  import opened Protocol
  import UpdateTypes
  import Immutable
  import opened Legacy

  // ---------------------------------------------------------------------
  // Construction

  /** Construction fails in development exactly when the instance has no
      reducer method, with the component's name; production does not
      check. */
  lemma ConstructionChecks(cls: ComponentClass, dev: bool)
    ensures ConstructionError(cls, dev).Some? <==> dev && !cls.reducer.Method?
    ensures ConstructionError(cls, dev).Some? ==> ConstructionError(cls, dev).value == NoReducer(NameInBase(cls))
  {
  }

  /** A reducer assigned as a class field does not exist yet while the base
      constructor runs, so development mode rejects the component; in
      production every `send` calls it. */
  lemma ClassFieldReducer(cls: ComponentClass, action: JsValue, given: JsValue)
    requires cls.reducer.ClassField?
    ensures ConstructionError(cls, true) == Some(NoReducer(NameInBase(cls)))
    ensures ConstructionError(cls, false) == None
    ensures Reduce(cls, action, given) == Ok(cls.reducer.value(action, given))
  {
  }

  /** The class name comes first; only a component without one falls back
      on `displayName`, and then a class-field `displayName` is missing from
      the constructor's error but present in every later one. */
  lemma ClassFieldDisplayName(cls: ComponentClass)
    requires cls.displayName.ClassField?
    ensures cls.className != [] ==> NameInBase(cls) == Name(cls) == cls.className
    ensures cls.className == [] ==> NameInBase(cls) == [] && Name(cls) == cls.displayName.value
  {
  }

  /** The representation follows what `initialState` returns: an Immutable.js
      value is stored as `{immutableState: v}` and read back by the getter; any
      other value is the state itself and the getter is absent. */
  lemma InitialRepresentation(cls: ComponentClass, props: JsValue)
    requires cls.initialState.Method? && cls.ownState.None?
    ensures var v := cls.initialState.value(props);
      && (Immutable.IsImmutable(v) ==>
            SelectsWrapped(cls, props) && InitialState(cls, props) == Wrap(v)
            && ImmutableStateOf(SelectsWrapped(cls, props), InitialState(cls, props)) == Some(v))
      && (!Immutable.IsImmutable(v) ==>
            !SelectsWrapped(cls, props) && InitialState(cls, props) == v
            && ImmutableStateOf(SelectsWrapped(cls, props), InitialState(cls, props)) == Some(Undefined))
  {
  }

  /** Without an `initialState` method (none at all, or a class field the
      base constructor cannot see) the constructor leaves the state to the
      subclass and never wraps. */
  lemma NoInitialStateLeavesStateAlone(cls: ComponentClass, props: JsValue)
    requires !cls.initialState.Method?
    ensures !SelectsWrapped(cls, props)
    ensures InitialState(cls, props) == (if cls.ownState.Some? then cls.ownState.value else Undefined)
  {
  }

  /** A plain object without the sentinel keys takes the plain path. */
  lemma PlainObjectTakesPlainPath(cls: ComponentClass, props: JsValue)
    requires cls.initialState.Method? && cls.ownState.None?
    requires cls.initialState.value(props).Object?
    requires Immutable.IS_ITERABLE_SENTINEL !in cls.initialState.value(props).props
    requires Immutable.IS_RECORD_SENTINEL !in cls.initialState.value(props).props
    ensures !SelectsWrapped(cls, props)
    ensures InitialState(cls, props) == cls.initialState.value(props)
  {
    Immutable.PlainObjectIsNotImmutable(cls.initialState.value(props));
  }

  // ---------------------------------------------------------------------
  // One send, plain state

  /** NoUpdate: the updater hands the state back unchanged. The state keeps
      its value, nothing is called, but the host still replaces the slot and
      re-renders (unless the slot is empty), where `Re` returns `null` and
      renders nothing. */
  lemma SendNoUpdate(cls: ComponentClass, dev: bool, slot: JsValue, action: JsValue)
    requires Reduce(cls, action, slot) == Ok(NoUpdate())
    ensures SendSpec(cls, dev, false, slot, action) == Committed(Commit(slot, !IsNullish(slot)), Skip)
    ensures SendSpec(cls, dev, false, slot, action).StateAfter(slot) == slot
  {
  }

  /** Update(s): `s` becomes the state (unless it is `null` or `undefined`);
      nothing is called. */
  lemma SendUpdate(cls: ComponentClass, dev: bool, slot: JsValue, action: JsValue, s: JsValue)
    requires Reduce(cls, action, slot) == Ok(Update(s))
    ensures SendSpec(cls, dev, false, slot, action) == Committed(Apply(slot, s), Skip)
  {
  }

  /** SideEffects(f): the state keeps its value and `f` is called once, with
      no argument, after the commit. */
  lemma SendSideEffects(cls: ComponentClass, dev: bool, slot: JsValue, action: JsValue, f: nat)
    requires Reduce(cls, action, slot) == Ok(SideEffects(Fn(f)))
    ensures SendSpec(cls, dev, false, slot, action) == Committed(Commit(slot, !IsNullish(slot)), Invoke(f))
    ensures SendSpec(cls, dev, false, slot, action).Called() == [f]
  {
  }

  /** UpdateWithSideEffects(s, f): `s` becomes the state (unless it is
      `null` or `undefined`), then `f` is called once. */
  lemma SendUpdateWithSideEffects(cls: ComponentClass, dev: bool, slot: JsValue, action: JsValue, s: JsValue, f: nat)
    requires Reduce(cls, action, slot) == Ok(UpdateWithSideEffects(s, Fn(f)))
    ensures SendSpec(cls, dev, false, slot, action) == Committed(Apply(slot, s), Invoke(f))
    ensures !IsNullish(s) ==> SendSpec(cls, dev, false, slot, action) == Committed(Commit(s, true), Invoke(f))
  {
  }

  /** A side effect is staged only by SideEffects and UpdateWithSideEffects:
      after NoUpdate or Update nothing is called, whatever else the result
      object carries. */
  lemma OnlyEffectResultsCall(cls: ComponentClass, dev: bool, wrapped: bool, slot: JsValue, action: JsValue, reduced: JsValue)
    requires wrapped ==> !IsNullish(slot)
    requires Reduce(cls, action, Given(wrapped, slot)) == Ok(reduced)
    requires !IsNullish(reduced) && Prop(reduced, "type") in {Num(NO_UPDATE), Num(UPDATE)}
    ensures SendSpec(cls, dev, wrapped, slot, action).Committed?
    ensures SendSpec(cls, dev, wrapped, slot, action).callback == Skip
  {
  }

  // ---------------------------------------------------------------------
  // Errors

  /** In development, `undefined` and an unknown tag make `send` throw the
      error naming the component, and nothing is committed. */
  lemma DevelopmentRejectsBadResults(cls: ComponentClass, wrapped: bool, slot: JsValue, action: JsValue, reduced: JsValue)
    requires wrapped ==> !IsNullish(slot)
    requires Reduce(cls, action, Given(wrapped, slot)) == Ok(reduced)
    requires reduced.Undefined? || (!IsNullish(reduced) && !UpdateTypes.HasKnownTag(reduced))
    ensures reduced.Undefined? ==> SendSpec(cls, true, wrapped, slot, action) == Aborted(ReturnedUndefined(Name(cls)))
    ensures !reduced.Undefined? ==> SendSpec(cls, true, wrapped, slot, action) == Aborted(InvalidResult(Name(cls)))
  {
    if !reduced.Undefined? {
      var tag := Prop(reduced, "type");
      assert tag != Num(NO_UPDATE) && tag != Num(UPDATE);
      assert tag != Num(SIDE_EFFECTS) && tag != Num(UPDATE_WITH_SIDE_EFFECTS);
    }
  }

  /** In production an unknown tag is let through: the updater hands the
      state back unchanged and nothing is called. */
  lemma ProductionToleratesUnknownTag(cls: ComponentClass, slot: JsValue, action: JsValue, reduced: JsValue)
    requires Reduce(cls, action, slot) == Ok(reduced)
    requires !IsNullish(reduced) && !UpdateTypes.HasKnownTag(reduced)
    ensures SendSpec(cls, false, false, slot, action) == Committed(Apply(slot, slot), Skip)
  {
    var tag := Prop(reduced, "type");
    assert tag != Num(NO_UPDATE) && tag != Num(UPDATE);
    assert tag != Num(SIDE_EFFECTS) && tag != Num(UPDATE_WITH_SIDE_EFFECTS);
  }

  // ---------------------------------------------------------------------
  // Wrapped state

  /** The wrapper adds exactly one layer: a wrapped send fails as the plain
      updater on the unwrapped value fails, and otherwise commits
      `{immutableState: x}`, with a re-render, where `x` is what the plain
      updater returns, and runs the same callback. */
  lemma WrappedSendWrapsOnce(cls: ComponentClass, dev: bool, slot: JsValue, action: JsValue)
    requires !IsNullish(slot)
    ensures var inner := Updater(cls, dev, false, action, Prop(slot, IMMUTABLE_STATE));
      && (inner.Err? ==> SendSpec(cls, dev, true, slot, action) == Aborted(inner.error))
      && (inner.Ok? ==> SendSpec(cls, dev, true, slot, action)
                        == Committed(Commit(Wrap(inner.value.returned), true), CallbackOf(inner.value.sideEffects)))
  {
  }

  /** In wrapped mode NoUpdate keeps the wrapped value: the updater hands
      back the unwrapped state, which the wrapper wraps again. */
  lemma WrappedNoUpdateKeepsValue(cls: ComponentClass, dev: bool, v: JsValue, action: JsValue)
    requires Reduce(cls, action, v) == Ok(NoUpdate())
    ensures SendSpec(cls, dev, true, Wrap(v), action) == Committed(Commit(Wrap(v), true), Skip)
    ensures ImmutableStateOf(true, SendSpec(cls, dev, true, Wrap(v), action).StateAfter(Wrap(v))) == Some(v)
  {
  }

  /** In wrapped mode Update(v) stores `{immutableState: v}`: the reducer's
      value is wrapped once and the getter returns it. */
  lemma WrappedUpdateRoundTrip(cls: ComponentClass, dev: bool, slot: JsValue, action: JsValue, v: JsValue)
    requires !IsNullish(slot)
    requires Reduce(cls, action, Prop(slot, IMMUTABLE_STATE)) == Ok(Update(v))
    ensures SendSpec(cls, dev, true, slot, action) == Committed(Commit(Wrap(v), true), Skip)
    ensures ImmutableStateOf(true, SendSpec(cls, dev, true, slot, action).StateAfter(slot)) == Some(v)
  {
  }

  // ---------------------------------------------------------------------
  // The click counter over an Immutable.js record

  /** A record `{count: n}`: its prototype carries the record sentinel. */
  function CountRecord(n: int): JsValue {
    Object(map[Immutable.IS_RECORD_SENTINEL := Bool(true), "count" := Num(n)])
  }

  /** `reducer(action, state)`: `"CLICK"` answers
      `Update(state.update("count", count => count + 1))`. It is meant for
      count records only: on any other state it answers `undefined` rather
      than model what Immutable.js would do. */
  function RecordCounterReducer(action: JsValue, state: JsValue): JsValue {
    if Get(action, "type") == Some(Str("CLICK")) then
      match Get(state, "count")
      case Some(Num(n)) => Update(CountRecord(n + 1))
      case _ => Undefined
    else
      Undefined
  }

  function RecordCounter(): ComponentClass {
    ComponentClass(Absent, "Example", Method(RecordCounterReducer), Method(_ => CountRecord(0)), None)
  }

  /** Mounting the record counter picks the wrapped representation; a click
      then leaves `{immutableState: {count: 1}}`, which the getter unwraps. */
  lemma RecordCounterClick(dev: bool, props: JsValue, click: JsValue)
    requires Get(click, "type") == Some(Str("CLICK"))
    ensures SelectsWrapped(RecordCounter(), props)
    ensures InitialState(RecordCounter(), props) == Wrap(CountRecord(0))
    ensures SendSpec(RecordCounter(), dev, true, Wrap(CountRecord(0)), click) == Committed(Commit(Wrap(CountRecord(1)), true), Skip)
  {
    Immutable.RecordIsImmutable(CountRecord(0));
    assert Get(CountRecord(0), "count") == Some(Num(0));
    WrappedUpdateRoundTrip(RecordCounter(), dev, Wrap(CountRecord(0)), click, CountRecord(1));
  }
}
