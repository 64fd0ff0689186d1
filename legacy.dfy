/** The older component base, `ReComponent` (src/index.js). It has its own
    copies of the result constructors and an instance reducer. It picks the
    wrapped state representation by testing what `initialState` returns. Its
    updater hands back the unchanged state where `Re` returns `null`, and it
    calls side effects with no argument. */
module Legacy {
  import opened JsValues
  import opened Host
  import opened Protocol
  import UpdateTypes
  import Immutable

  const NO_UPDATE := 0
  const UPDATE := 1
  const SIDE_EFFECTS := 2
  const UPDATE_WITH_SIDE_EFFECTS := 3

  /** `{type: NO_UPDATE}`, the same object the current constructor builds. */
  function NoUpdate(): (r: JsValue)
    ensures r == UpdateTypes.NoUpdate()
    ensures Get(r, "type") == Some(Num(0))
  {
    Object(map["type" := Num(NO_UPDATE)])
  }

  /** `{type: UPDATE, state}` */
  function Update(state: JsValue): (r: JsValue)
    ensures r == UpdateTypes.Update(state)
    ensures Get(r, "type") == Some(Num(1)) && Get(r, "state") == Some(state)
  {
    Object(map["type" := Num(UPDATE), "state" := state])
  }

  /** `{type: SIDE_EFFECTS, sideEffects}` */
  function SideEffects(sideEffects: JsValue): (r: JsValue)
    ensures r == UpdateTypes.SideEffects(sideEffects)
    ensures Get(r, "type") == Some(Num(2)) && Get(r, "sideEffects") == Some(sideEffects)
  {
    Object(map["type" := Num(SIDE_EFFECTS), "sideEffects" := sideEffects])
  }

  /** `{type: UPDATE_WITH_SIDE_EFFECTS, state, sideEffects}` */
  function UpdateWithSideEffects(state: JsValue, sideEffects: JsValue): (r: JsValue)
    ensures r == UpdateTypes.UpdateWithSideEffects(state, sideEffects)
    ensures Get(r, "type") == Some(Num(3))
    ensures Get(r, "state") == Some(state) && Get(r, "sideEffects") == Some(sideEffects)
  {
    Object(map["type" := Num(UPDATE_WITH_SIDE_EFFECTS), "state" := state, "sideEffects" := sideEffects])
  }

  /** What a component class extending `ReComponent` brings along. Its
      instance members say whether they are methods or class fields, which
      the base constructor cannot see. */
  datatype ComponentClass = ComponentClass(
    displayName: Member<string>,            // `this.displayName`
    className: string,                      // `this.constructor.name`
    reducer: Member<Reducer>,               // `reducer(action, state)` on the instance
    initialState: Member<JsValue -> JsValue>, // `initialState(props)`
    ownState: Option<JsValue>)              // what the subclass assigns to `this.state` once `super(props)` returns

  /** The name diagnostics use, `this.constructor.name || this.displayName`,
      as `send` and `setState` read it once construction is over. */
  function Name(cls: ComponentClass): string {
    if cls.className != [] then cls.className
    else if cls.displayName.Defined() then cls.displayName.value
    else []
  }

  /** The same name as the base constructor reads it, before class fields
      are assigned. */
  function NameInBase(cls: ComponentClass): string {
    if cls.className != [] then cls.className
    else if cls.displayName.SeenByBase() then cls.displayName.value
    else []
  }

  /** The configuration error the constructor throws. It looks for the
      reducer before class fields are assigned. */
  function ConstructionError(cls: ComponentClass, dev: bool): Option<Error> {
    if dev && !cls.reducer.SeenByBase() then Some(NoReducer(NameInBase(cls))) else None
  }

  /** The constructor's one-time choice of representation: wrapped exactly
      when `initialState` is a method the base constructor sees and its
      result is an object carrying a truthy Immutable.js sentinel. */
  function SelectsWrapped(cls: ComponentClass, props: JsValue): (r: bool)
    ensures r <==> (cls.initialState.SeenByBase() &&
                    var v := cls.initialState.value(props);
                    v.Object? && exists key <- {Immutable.IS_ITERABLE_SENTINEL, Immutable.IS_RECORD_SENTINEL} :: key in v.props && Truthy(v.props[key]))
  {
    cls.initialState.SeenByBase() && Immutable.IsImmutable(cls.initialState.value(props))
  }

  /** The state slot once construction is over. */
  function InitialState(cls: ComponentClass, props: JsValue): JsValue {
    if cls.ownState.Some? then cls.ownState.value
    else if cls.initialState.SeenByBase() then
      var v := cls.initialState.value(props);
      if Immutable.IsImmutable(v) then Wrap(v) else v
    else Undefined
  }

  /** The reducer call `this.reducer(action, state)`: without a reducer
      (possible in production only) it throws a TypeError. A class-field
      reducer is called like a method. */
  function Reduce(cls: ComponentClass, action: JsValue, given: JsValue): (r: Result<JsValue>)
    ensures r.Err? <==> !cls.reducer.Defined()
    ensures r.Err? ==> r.error == TypeError
  {
    if cls.reducer.Defined() then Ok(cls.reducer.value(action, given)) else Err(TypeError)
  }

  /** The updater's checks and its switch on `reduced.type`. Unlike `Re`, the
      no-update branches return the state the updater was given. It fails
      exactly on a nullish result, and in development on a result without
      one of the four tags; only the two side-effect tags stage a side
      effect, and only the two update tags hand back anything but `given`. */
  function Interpret(dev: bool, name: string, reduced: JsValue, given: JsValue): (r: Result<Staged>)
    ensures r.Ok? <==> !IsNullish(reduced) && (!dev || UpdateTypes.HasKnownTag(reduced))
    ensures dev && reduced.Undefined? ==> r == Err(ReturnedUndefined(name))
    ensures IsNullish(reduced) && !(dev && reduced.Undefined?) ==> r == Err(TypeError)
    ensures dev && !IsNullish(reduced) && !UpdateTypes.HasKnownTag(reduced) ==> r == Err(InvalidResult(name))
    ensures r.Ok? && r.value.sideEffects != Undefined ==>
      !IsNullish(reduced) && Prop(reduced, "type") in {Num(SIDE_EFFECTS), Num(UPDATE_WITH_SIDE_EFFECTS)}
    ensures r.Ok? && r.value.returned != given ==>
      !IsNullish(reduced) && Prop(reduced, "type") in {Num(UPDATE), Num(UPDATE_WITH_SIDE_EFFECTS)}
  {
    if dev && reduced.Undefined? then Err(ReturnedUndefined(name))
    else if IsNullish(reduced) then Err(TypeError)
    else
      var tag := Prop(reduced, "type");
      if tag == Num(NO_UPDATE) then Ok(Staged(given, Undefined))
      else if tag == Num(UPDATE) then Ok(Staged(Prop(reduced, "state"), Undefined))
      else if tag == Num(SIDE_EFFECTS) then Ok(Staged(given, Prop(reduced, "sideEffects")))
      else if tag == Num(UPDATE_WITH_SIDE_EFFECTS) then
        Ok(Staged(Prop(reduced, "state"), Prop(reduced, "sideEffects")))
      else if dev then Err(InvalidResult(name))
      else Ok(Staged(given, Undefined))
  }

  /** The updater as the host runs it on the slot, through the wrapper in
      wrapped mode. */
  function Updater(cls: ComponentClass, dev: bool, wrapped: bool, action: JsValue, slot: JsValue): Result<Staged> {
    if wrapped && IsNullish(slot) then Err(TypeError)
    else
      var given := Given(wrapped, slot);
      match Reduce(cls, action, given)
      case Err(e) => Err(e)
      case Ok(reduced) =>
        match Interpret(dev, Name(cls), reduced, given)
        case Err(e) => Err(e)
        case Ok(st) => Ok(if wrapped then Staged(Wrap(st.returned), st.sideEffects) else st)
  }

  /** One `send(action)` on the slot `slot`. */
  function SendSpec(cls: ComponentClass, dev: bool, wrapped: bool, slot: JsValue, action: JsValue): Outcome {
    match Updater(cls, dev, wrapped, action, slot)
    case Err(e) => Aborted(e)
    case Ok(st) => Committed(Apply(slot, st.returned), CallbackOf(st.sideEffects))
  }

  /** A side effect that was called (with no argument), and the state slot
      the instance held when it was called. */
  datatype Invocation = Invocation(fn: nat, seen: JsValue)

  /** A mounted `ReComponent`. `renders` counts the re-renders that state
      replacements caused; `effects` logs the side effects called. */
  class ReComponent {
    const cls: ComponentClass
    const dev: bool
    /** `setState` was replaced by the `{immutableState}` wrapper. */
    const wrapped: bool
    /** `this.setState` was replaced by the function that always throws. */
    const setStateLocked: bool
    var state: JsValue
    var renders: nat
    var effects: seq<Invocation>

    /** What construction leaves behind when it does not throw. */
    ghost predicate Constructed(cls: ComponentClass, props: JsValue, dev: bool)
      reads this
    {
      && this.cls == cls && this.dev == dev
      && setStateLocked == dev
      && wrapped == SelectsWrapped(cls, props)
      && state == InitialState(cls, props)
      && renders == 0 && effects == []
    }

    /** The constructor once its reducer check has passed: the `setState`
        lockout, the representation chosen from `initialState`'s result,
        then the subclass's own `this.state`. */
    constructor (cls: ComponentClass, props: JsValue, dev: bool)
      requires ConstructionError(cls, dev).None?
      ensures Constructed(cls, props, dev)
    {
      var initial := Undefined;
      var isWrapped := false;
      if cls.initialState.SeenByBase() {
        initial := cls.initialState.value(props);
        if Immutable.IsImmutable(initial) {
          initial := Wrap(initial);
          isWrapped := true;
        }
      }
      this.cls := cls;
      this.dev := dev;
      setStateLocked := dev;
      wrapped := isWrapped;
      state := initial;
      if cls.ownState.Some? {
        state := cls.ownState.value;
      }
      renders := 0;
      effects := [];
    }

    /** What one `send(action)` did to the instance, and what it threw. A
        side effect is called once the new state is in place, so it sees
        the committed state. */
    twostate predicate Sent(action: JsValue, new thrown: Option<Error>)
      reads this
    {
      var o := SendSpec(cls, dev, wrapped, old(state), action);
      && state == o.StateAfter(old(state))
      && renders == old(renders) + o.Renders()
      && effects == old(effects) + (if o.Committed? && o.callback.Invoke? then [Invocation(o.callback.fn, o.StateAfter(old(state)))] else [])
      && thrown == o.Thrown()
    }

    /** The updater `send` hands to the host, run on the slot `slot`; it
        returns the value for the host and the side effect it assigned to
        the `sideEffects` variable `send` closes over. */
    method RunUpdater(action: JsValue, slot: JsValue) returns (r: Result<Staged>)
      ensures r == Updater(cls, dev, wrapped, action, slot)
    {
      var sideEffects := Undefined;
      var given := slot;
      if wrapped {
        if IsNullish(slot) {
          return Err(TypeError);
        }
        given := Prop(slot, IMMUTABLE_STATE);
      }
      if !cls.reducer.Defined() {
        return Err(TypeError);
      }
      var reduced := cls.reducer.value(action, given);
      if dev && reduced.Undefined? {
        return Err(ReturnedUndefined(Name(cls)));
      }
      if IsNullish(reduced) {
        return Err(TypeError);
      }
      var tag := Prop(reduced, "type");
      var next := given;
      if tag == Num(NO_UPDATE) {
      } else if tag == Num(UPDATE) {
        next := Prop(reduced, "state");
      } else if tag == Num(SIDE_EFFECTS) {
        sideEffects := Prop(reduced, "sideEffects");
      } else if tag == Num(UPDATE_WITH_SIDE_EFFECTS) {
        next := Prop(reduced, "state");
        sideEffects := Prop(reduced, "sideEffects");
      } else if dev {
        return Err(InvalidResult(Name(cls)));
      }
      assert Interpret(dev, Name(cls), reduced, given) == Ok(Staged(next, sideEffects));
      r := Ok(Staged(if wrapped then Wrap(next) else next, sideEffects));
    }

    /** `this.send(action)`, through the host's original `setState`. */
    method Send(action: JsValue) returns (thrown: Option<Error>)
      modifies this
      ensures Sent(action, thrown)
    {
      var staged := RunUpdater(action, state);
      if staged.Err? {
        return Some(staged.error);
      }
      var returned, sideEffects := staged.value.returned, staged.value.sideEffects;
      // The host commits what the updater returned ...
      if !IsNullish(returned) {
        state := returned;
        renders := renders + 1;
      }
      // ... then runs `() => sideEffects && sideEffects()`.
      thrown := None;
      if Truthy(sideEffects) {
        if sideEffects.Fn? {
          effects := effects + [Invocation(sideEffects.id, state)];
        } else {
          thrown := Some(TypeError);
        }
      }
    }

    /** Calling the sender `this.createSender(actionType)` with `args`. */
    method CallSender(actionType: JsValue, args: seq<JsValue>) returns (thrown: Option<Error>)
      modifies this
      ensures Sent(FluxAction(actionType, args), thrown)
    {
      thrown := Send(FluxAction(actionType, args));
    }

    /** Component code calling `this.setState(partial)` directly: it throws
        after a development-mode construction, and is the host's own
        `setState` in production. */
    method SetState(partial: JsValue) returns (thrown: Option<Error>)
      modifies this
      ensures setStateLocked ==> thrown == Some(SetStateNotAllowed(Name(cls))) && state == old(state) && renders == old(renders)
      ensures !setStateLocked ==> thrown == None && state == Apply(old(state), partial).state
      ensures !setStateLocked ==> renders == old(renders) + (if Apply(old(state), partial).rendered then 1 else 0)
      ensures effects == old(effects)
    {
      if setStateLocked {
        return Some(SetStateNotAllowed(Name(cls)));
      }
      if !IsNullish(partial) {
        state := partial;
        renders := renders + 1;
      }
      thrown := None;
    }

    /** `this.immutableState`: in wrapped mode it reads
        `this.state.immutableState`, throwing (`None`) when the slot is
        `null` or `undefined`; otherwise the property is not defined. */
    function ImmutableState(): (r: Option<JsValue>)
      reads this
      ensures r == ImmutableStateOf(wrapped, state)
    {
      ImmutableStateOf(wrapped, state)
    }
  }

  /** `new C(props)`: throws the configuration error when development mode
      finds no reducer, and otherwise yields the instance. */
  method Construct(cls: ComponentClass, props: JsValue, dev: bool) returns (r: Result<ReComponent>)
    ensures r.Err? <==> ConstructionError(cls, dev).Some?
    ensures r.Err? ==> r.error == ConstructionError(cls, dev).value
    ensures r.Ok? ==> fresh(r.value) && r.value.Constructed(cls, props, dev)
  {
    if dev && !cls.reducer.SeenByBase() {
      return Err(NoReducer(NameInBase(cls)));
    }
    var c := new ReComponent(cls, props, dev);
    return Ok(c);
  }
}
