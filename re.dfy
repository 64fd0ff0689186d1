/** The current component base, `Re(Component)` (src/re.js): a class whose
    state changes only through `send`, which runs the component's reducer
    inside a functional `setState` updater and interprets the tagged result
    it returns. */
module Re {
  import opened JsValues
  import opened Host
  import opened Protocol
  import UpdateTypes

  /** What a component class built on `Re(Component)` brings along. A
      static reducer that is absent, or is not a function, is `None`; the
      instance members say whether they are methods or class fields, which
      the base constructor cannot see. */
  datatype ComponentClass = ComponentClass(
    displayName: Member<string>,                     // `this.displayName`
    className: string,                               // `this.constructor.name`
    staticReducer: Option<Reducer>,                  // `static reducer(action, state)`
    propertyReducer: Member<Reducer>,                // `reducer(action, state)` on the instance (deprecated)
    initialImmutableState: Member<JsValue -> JsValue>, // `initialImmutableState(props)`
    ownState: Option<JsValue>)                       // what the subclass assigns to `this.state` once `super(props)` returns

  /** The name diagnostics use, `this.displayName || this.constructor.name`,
      as `send` and `setState` read it once construction is over. */
  function Name(cls: ComponentClass): string {
    if cls.displayName.Defined() && cls.displayName.value != [] then cls.displayName.value else cls.className
  }

  /** The same name as the base constructor reads it, before class fields
      are assigned. */
  function NameInBase(cls: ComponentClass): string {
    if cls.displayName.SeenByBase() && cls.displayName.value != [] then cls.displayName.value else cls.className
  }

  /** The configuration error the constructor throws. It looks for the
      property reducer before class fields are assigned. */
  function ConstructionError(cls: ComponentClass, dev: bool): Option<Error> {
    if dev && cls.staticReducer.None? && !cls.propertyReducer.SeenByBase() then Some(NoReducer(NameInBase(cls))) else None
  }

  /** The warnings the constructor prints. */
  function ConstructionWarnings(cls: ComponentClass, dev: bool): seq<Warning> {
    if dev && cls.propertyReducer.SeenByBase() then [DeprecatedPropertyReducer(NameInBase(cls))] else []
  }

  /** The state slot once construction is over: the subclass's own
      assignment, if any, wins over the wrapped initial immutable state,
      which the base constructor sets first (and only when
      `initialImmutableState` is a method it can see). */
  function InitialState(cls: ComponentClass, props: JsValue): JsValue {
    if cls.ownState.Some? then cls.ownState.value
    else if cls.initialImmutableState.SeenByBase() then Wrap(cls.initialImmutableState.value(props))
    else Undefined
  }

  /** The reducer call inside the updater: the property reducer, when there
      is one, is preferred on every call; with neither, calling the missing
      static reducer throws a TypeError (reachable in production only, or
      in development when the only reducer is a class field). */
  function Reduce(cls: ComponentClass, action: JsValue, given: JsValue): (r: Result<JsValue>)
    ensures r.Err? <==> !cls.propertyReducer.Defined() && cls.staticReducer.None?
    ensures r.Err? ==> r.error == TypeError
  {
    if cls.propertyReducer.Defined() then Ok(cls.propertyReducer.value(action, given))
    else if cls.staticReducer.Some? then Ok(cls.staticReducer.value(action, given))
    else Err(TypeError)
  }

  /** The updater's checks and its switch on `reduced.type`, given the state
      `given` the updater was called with. It fails exactly on a nullish
      result, and in development on a result without one of the four tags;
      only the two side-effect tags stage a side effect; in production an
      untagged result hands `given` back. */
  function Interpret(dev: bool, name: string, reduced: JsValue, given: JsValue): (r: Result<Staged>)
    ensures r.Ok? <==> !IsNullish(reduced) && (!dev || UpdateTypes.HasKnownTag(reduced))
    ensures dev && reduced.Undefined? ==> r == Err(ReturnedUndefined(name))
    ensures IsNullish(reduced) && !(dev && reduced.Undefined?) ==> r == Err(TypeError)
    ensures dev && !IsNullish(reduced) && !UpdateTypes.HasKnownTag(reduced) ==> r == Err(InvalidResult(name))
    ensures !dev && !IsNullish(reduced) && !UpdateTypes.HasKnownTag(reduced) ==> r == Ok(Staged(given, Undefined))
    ensures r.Ok? && r.value.sideEffects != Undefined ==>
      !IsNullish(reduced) && Prop(reduced, "type") in {Num(UpdateTypes.SIDE_EFFECTS), Num(UpdateTypes.UPDATE_WITH_SIDE_EFFECTS)}
  {
    if dev && reduced.Undefined? then Err(ReturnedUndefined(name))
    else if IsNullish(reduced) then Err(TypeError)
    else
      var tag := Prop(reduced, "type");
      if tag == Num(UpdateTypes.NO_UPDATE) then Ok(Staged(Null, Undefined))
      else if tag == Num(UpdateTypes.UPDATE) then Ok(Staged(Prop(reduced, "state"), Undefined))
      else if tag == Num(UpdateTypes.SIDE_EFFECTS) then Ok(Staged(Null, Prop(reduced, "sideEffects")))
      else if tag == Num(UpdateTypes.UPDATE_WITH_SIDE_EFFECTS) then
        Ok(Staged(Prop(reduced, "state"), Prop(reduced, "sideEffects")))
      else if dev then Err(InvalidResult(name))
      else Ok(Staged(given, Undefined))
  }

  /** The updater as the host runs it on the state slot `slot`: directly, or
      in wrapped mode through the `{immutableState}` wrapper, which unwraps
      the slot for the reducer and wraps whatever the updater returns. */
  function Updater(cls: ComponentClass, dev: bool, wrapped: bool, action: JsValue, slot: JsValue): Result<Staged> {
    if wrapped && IsNullish(slot) then Err(TypeError)
    else
      var given := Given(wrapped, slot);
      match Reduce(cls, action, given)
      case Err(e) => Err(e)
      case Ok(reduced) =>
        match Interpret(dev, Name(cls), reduced, given)
        case Err(e) => Err(e)
        case Ok(st) => Ok(if wrapped then Staged(Wrap(st.returned), st.sideEffects) else st)
  }

  /** One `send(action)` on the slot `slot`: the host applies the updater,
      commits what it returns, then runs the completion callback. */
  function SendSpec(cls: ComponentClass, dev: bool, wrapped: bool, slot: JsValue, action: JsValue): Outcome {
    match Updater(cls, dev, wrapped, action, slot)
    case Err(e) => Aborted(e)
    case Ok(st) => Committed(Apply(slot, st.returned), CallbackOf(st.sideEffects))
  }

  /** A side effect that was called: the argument it received, and the
      state slot the instance held when it was called. */
  datatype Invocation = Invocation(fn: nat, receiver: Component, seen: JsValue)

  /** A mounted component instance. `renders` counts the re-renders that
      state replacements caused; `effects` logs every side effect called;
      `warnings` is what the constructor printed. */
  class Component {
    const cls: ComponentClass
    const dev: bool
    /** `setState` was replaced by the `{immutableState}` wrapper. */
    const wrapped: bool
    /** `this.setState` was replaced by the function that always throws. */
    const setStateLocked: bool
    var state: JsValue
    var renders: nat
    var effects: seq<Invocation>
    var warnings: seq<Warning>

    /** What construction leaves behind when it does not throw. */
    ghost predicate Constructed(cls: ComponentClass, props: JsValue, dev: bool)
      reads this
    {
      && this.cls == cls && this.dev == dev
      && setStateLocked == dev
      && wrapped == cls.initialImmutableState.SeenByBase()
      && state == InitialState(cls, props)
      && renders == 0 && effects == []
      && warnings == ConstructionWarnings(cls, dev)
    }

    /** The constructor once its reducer check has passed: the deprecation
        warning, the `setState` lockout and the wrapped initial state,
        followed by the subclass's own `this.state`. */
    constructor (cls: ComponentClass, props: JsValue, dev: bool)
      requires ConstructionError(cls, dev).None?
      ensures Constructed(cls, props, dev)
    {
      this.cls := cls;
      this.dev := dev;
      setStateLocked := dev;
      wrapped := cls.initialImmutableState.SeenByBase();
      new;
      warnings := [];
      if dev && cls.propertyReducer.SeenByBase() {
        warnings := warnings + [DeprecatedPropertyReducer(NameInBase(cls))];
      }
      state := Undefined;
      if cls.initialImmutableState.SeenByBase() {
        state := Wrap(cls.initialImmutableState.value(props));
      }
      if cls.ownState.Some? {
        state := cls.ownState.value;
      }
      renders := 0;
      effects := [];
    }

    /** What one `send(action)` did to the instance, and what it threw. A
        side effect is called with the instance once the new state is in
        place, so it sees the committed state. */
    twostate predicate Sent(action: JsValue, new thrown: Option<Error>)
      reads this
    {
      var o := SendSpec(cls, dev, wrapped, old(state), action);
      && state == o.StateAfter(old(state))
      && renders == old(renders) + o.Renders()
      && effects == old(effects) + (if o.Committed? && o.callback.Invoke? then [Invocation(o.callback.fn, this, o.StateAfter(old(state)))] else [])
      && thrown == o.Thrown()
      && warnings == old(warnings)
    }

    /** The updater `send` hands to the host, run on the slot `slot`. It
        returns what it stages: the value for the host and the side effect
        it assigned to the `sideEffects` variable `send` closes over. */
    method RunUpdater(action: JsValue, slot: JsValue) returns (r: Result<Staged>)
      ensures r == Updater(cls, dev, wrapped, action, slot)
    {
      var sideEffects := Undefined;
      var given := slot;
      if wrapped {
        if IsNullish(slot) {
          return Err(TypeError);
        }
        given := Prop(slot, IMMUTABLE_STATE);
      }
      var reduced: JsValue;
      if cls.propertyReducer.Defined() {
        reduced := cls.propertyReducer.value(action, given);
      } else if cls.staticReducer.Some? {
        reduced := cls.staticReducer.value(action, given);
      } else {
        return Err(TypeError);
      }
      assert Reduce(cls, action, given) == Ok(reduced);
      if dev && reduced.Undefined? {
        return Err(ReturnedUndefined(Name(cls)));
      }
      if IsNullish(reduced) {
        return Err(TypeError);
      }
      var tag := Prop(reduced, "type");
      var next := given;
      if tag == Num(UpdateTypes.NO_UPDATE) {
        next := Null;
      } else if tag == Num(UpdateTypes.UPDATE) {
        next := Prop(reduced, "state");
      } else if tag == Num(UpdateTypes.SIDE_EFFECTS) {
        next := Null;
        sideEffects := Prop(reduced, "sideEffects");
      } else if tag == Num(UpdateTypes.UPDATE_WITH_SIDE_EFFECTS) {
        next := Prop(reduced, "state");
        sideEffects := Prop(reduced, "sideEffects");
      } else if dev {
        return Err(InvalidResult(Name(cls)));
      }
      assert Interpret(dev, Name(cls), reduced, given) == Ok(Staged(next, sideEffects));
      r := Ok(Staged(if wrapped then Wrap(next) else next, sideEffects));
    }

    /** `this.send(action)`. It calls the host's original `setState`, so the
        lockout does not affect it. */
    method Send(action: JsValue) returns (thrown: Option<Error>)
      modifies this
      ensures Sent(action, thrown)
    {
      var staged := RunUpdater(action, state);
      if staged.Err? {
        return Some(staged.error);
      }
      var returned, sideEffects := staged.value.returned, staged.value.sideEffects;
      // The host commits what the updater returned ...
      if !IsNullish(returned) {
        state := returned;
        renders := renders + 1;
      }
      // ... then runs `() => sideEffects && sideEffects(this)`.
      thrown := None;
      if Truthy(sideEffects) {
        if sideEffects.Fn? {
          effects := effects + [Invocation(sideEffects.id, this, state)];
        } else {
          thrown := Some(TypeError);
        }
      }
    }

    /** Calling the sender `this.createSender(actionType)` with `args`: it
        sends `{type: actionType, payload: args[0]}`. */
    method CallSender(actionType: JsValue, args: seq<JsValue>) returns (thrown: Option<Error>)
      modifies this
      ensures Sent(FluxAction(actionType, args), thrown)
    {
      thrown := Send(FluxAction(actionType, args));
    }

    /** Component code calling `this.setState(partial)` directly. After a
        development-mode construction it throws and changes nothing; in
        production it is the host's own `setState`. */
    method SetState(partial: JsValue) returns (thrown: Option<Error>)
      modifies this
      ensures setStateLocked ==> thrown == Some(SetStateNotAllowed(Name(cls))) && state == old(state) && renders == old(renders)
      ensures !setStateLocked ==> thrown == None && state == Apply(old(state), partial).state
      ensures !setStateLocked ==> renders == old(renders) + (if Apply(old(state), partial).rendered then 1 else 0)
      ensures effects == old(effects) && warnings == old(warnings)
    {
      if setStateLocked {
        return Some(SetStateNotAllowed(Name(cls)));
      }
      if !IsNullish(partial) {
        state := partial;
        renders := renders + 1;
      }
      thrown := None;
    }

    /** `this.immutableState`: in wrapped mode it reads
        `this.state.immutableState`, throwing (`None`) when the slot is
        `null` or `undefined`; otherwise the property is not defined. */
    function ImmutableState(): (r: Option<JsValue>)
      reads this
      ensures r == ImmutableStateOf(wrapped, state)
    {
      ImmutableStateOf(wrapped, state)
    }
  }

  /** `new C(props)`: the constructor throws the configuration error when
      development mode finds no reducer, and otherwise yields the instance. */
  method Construct(cls: ComponentClass, props: JsValue, dev: bool) returns (r: Result<Component>)
    ensures r.Err? <==> ConstructionError(cls, dev).Some?
    ensures r.Err? ==> r.error == ConstructionError(cls, dev).value
    ensures r.Ok? ==> fresh(r.value) && r.value.Constructed(cls, props, dev)
  {
    if dev && cls.staticReducer.None? && !cls.propertyReducer.SeenByBase() {
      return Err(NoReducer(NameInBase(cls)));
    }
    var c := new Component(cls, props, dev);
    return Ok(c);
  }
}
