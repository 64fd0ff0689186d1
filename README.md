# react-recomponent dispatch core in Dafny

This project models the dispatch core of react-recomponent, a library for
React class components. A component's next state comes only from its
reducer `(action, state) => result`. The result is one of four tagged
objects: `NoUpdate()`, `Update(state)`, `SideEffects(fn)` and
`UpdateWithSideEffects(state, fn)`. The component's `send(action)` runs the
reducer inside a functional `setState` updater, reads the result's tag,
stages the new state and/or side effect, and calls the side effect once the
host has committed. In development mode the constructor checks that a
reducer exists and replaces `this.setState` with a function that always
throws. State can also be kept as `{immutableState: v}` around an
Immutable.js value, read back through an `immutableState` getter.

Both versions of the core are modelled:

- `Re` (`re.dfy`, properties in `re_properties.dfy`) models the current
  `Re(Component)` class factory. It has a static reducer, or a deprecated
  property reducer that draws a warning. `initialImmutableState` selects the
  wrapped state. NoUpdate and SideEffects make the updater return `null`.
  Side effects receive the instance.
- `Legacy` (`legacy.dfy`, properties in `legacy_properties.dfy`) models the
  older `ReComponent`. It has its own result constructors and an instance
  reducer. It picks the wrapped state by running `isImmutable` on what
  `initialState` returns. Its updater hands back the unchanged state for
  NoUpdate and SideEffects. Side effects are called with no argument.
- `UpdateTypes` (`update_types.dfy`) holds the four tags and constructors.
  `Immutable` (`is_immutable.dfy`) holds the sentinel-key predicates.
- `JsValues` (`js_values.dfy`) holds the few JavaScript semantics the core
  relies on: truthiness, and property reads that throw on `null` or
  `undefined`. `Host` (`host.dfy`) is React reduced to one step: apply the
  updater; a `null`/`undefined` result replaces nothing and renders nothing;
  any other result replaces the state slot and counts one re-render; then
  run the completion callback. `Protocol` (`protocol.dfy`) holds what the
  two versions share. That covers how a subclass defines the members the
  base constructor looks for, the `{immutableState}` wrapper, the sender's
  action and the outcome of one send. It also covers the `sideEffects && ...`
  test in the completion callback. What follows that test differs: the
  current version calls `sideEffects(this)`, the older one `sideEffects()`.

Each version's instance is a class with the state slot, a re-render
counter, a log of the side effects called, and in `Re` the warnings
printed. Each log entry records the state the instance held when the side
effect ran, which pins the call to after the commit. `Send` is proved
against a pure function `SendSpec`, and the lemmas state what `SendSpec`
does for each result. The development/production switch is a constructor
flag. Side effects are opaque function ids. Errors
and warnings are kinds that carry the component's name.

The deprecation warning for a property reducer is printed once, by the
constructor, and only in development. Production skips five things: the
reducer-presence check, that warning, the `setState` lockout, the check for
an `undefined` reducer result, and the check for an unknown result tag. The
dispatch itself still fails in production when there is no reducer, or when
the reducer returns `undefined`: both then throw a TypeError instead of the
library's error.

The base constructor runs before a subclass's class fields are assigned.
So its checks see a `reducer`, `initialImmutableState`, `initialState` or
`displayName` only when it is on the prototype. A class field is visible
to `send` and `setState` alone. A component whose only reducer is a class
field therefore fails the development check. A class-field initializer is
never used. In `Re`, a class-field `displayName` is missing from the name
in the constructor's error and warning but present in every later error.
In `ReComponent` the class name comes first, so a class-field
`displayName` shows only for an anonymous class. Each such member is a `Member`: absent, on the prototype, or a class field.

The current version does not hand the unchanged state back for
NoUpdate/SideEffects. It returns `null`. In wrapped mode that `null` is
wrapped, so the slot becomes `{immutableState: null}`. This is shown by
`ReProperties.WrappedNoUpdateStoresNull`.

## Model

| member | source | states |
|---|---|---|
| UpdateTypes.TagsDistinct | src/update-types.js:1-4 | the four tags are 0, 1, 2, 3 and pairwise distinct |
| UpdateTypes.NoUpdate | src/update-types.js:6-10 | the result carries only the `type` key, with the NO_UPDATE tag; `state` and `sideEffects` read as undefined |
| UpdateTypes.Update | src/update-types.js:12-17 | the result carries exactly `type` (UPDATE) and `state`, and `state` is the argument |
| UpdateTypes.SideEffects | src/update-types.js:19-24 | the result carries exactly `type` (SIDE_EFFECTS) and `sideEffects`, and `sideEffects` is the argument |
| UpdateTypes.UpdateWithSideEffects | src/update-types.js:26-32 | the result carries exactly `type` (UPDATE_WITH_SIDE_EFFECTS), `state` and `sideEffects`, each the given argument |
| UpdateTypes.ConstructorsDistinct | src/update-types.js:6-32 | no two constructors build the same object, and each constructor is injective in its arguments |
| Immutable.CarriesSentinel | src/isImmutable.js:14-20 | `!!(x && x[key])` holds exactly when x is an object with a truthy value under `key` |
| Immutable.IsCollection | src/isImmutable.js:14-16 | true exactly when x has a truthy value under the iterable sentinel |
| Immutable.IsRecord | src/isImmutable.js:18-20 | true exactly when x has a truthy value under the record sentinel |
| Immutable.IsImmutable | src/isImmutable.js:10-12 | true exactly when x is an object with a truthy value under one of the two sentinels; only objects qualify |
| Immutable.FalsyIsNotImmutable | src/isImmutable.js:14-20 | a falsy value is neither a collection nor a record |
| Immutable.SentinelsDistinct | src/isImmutable.js:22-23 | the two sentinel keys are different strings |
| Immutable.PlainObjectIsNotImmutable | src/isImmutable.js:10-20 | an object with neither sentinel key is not immutable |
| Immutable.RecordIsImmutable | src/isImmutable.js:18-20 | an object with a truthy record sentinel is a record and immutable |
| Host.Apply | src/re.js:151 | the host replaces the slot and renders once exactly when the updater's result is neither null nor undefined |
| Protocol.Wrap | src/re.js:69-78 | the wrapper has the single key `immutableState`, holding the wrapped value |
| Protocol.WrapInjective | src/re.js:73-84 | wrapping loses nothing (equal wrappers hold equal values) and never yields the value itself |
| Protocol.CallbackOf | src/re.js:151 | the `sideEffects && ...` test calls nothing for a falsy value, calls a function once, and throws for anything else (the call's argument is recorded by each version's `Send`) |
| Protocol.FluxAction | src/re.js:163-170 | a sender's action is exactly `{type, payload}`, with the payload being the first argument or undefined |
| Protocol.SenderIgnoresExtraArguments | src/re.js:158-170 | arguments after the first do not change the action |
| Re.Construct | src/re.js:13-36 | `new` fails with the no-reducer error exactly when development mode finds neither reducer; otherwise it yields a fresh, constructed instance |
| Re.Component.constructor | src/re.js:10-85 | once the reducer check has passed: warnings, `setState` lockout (dev only), wrapped mode iff `initialImmutableState` is a method, and the initial slot; no renders and no effects yet |
| Re.Reduce | src/re.js:99-104 | the reducer call fails, with a TypeError, exactly when there is neither an instance reducer nor a static one |
| Re.Interpret | src/re.js:106-148 | the updater fails exactly on a nullish result, or in dev on one without a known tag, with the matching error; only the two side-effect tags stage a side effect; in production an untagged result hands the given state back |
| Re.Component.RunUpdater | src/re.js:98-149 | the updater's result (value for the host, staged side effect, or error) equals `Updater` |
| Re.Component.Send | src/re.js:95-152 | the new slot, render count and thrown error are those of `SendSpec` on the old slot; a called side effect is logged with the instance and the already committed state; warnings are unchanged |
| Re.Component.CallSender | src/re.js:163-170 | calling `createSender(t)` with args is a `send` of `{type: t, payload: args[0]}` |
| Re.Component.SetState | src/re.js:40-52 | after a dev construction it throws the setState error and changes nothing; in production it is the host's own replace |
| Protocol.ImmutableStateOf | src/re.js:82-84 | the `immutableState` getter reads `state.immutableState` in wrapped mode, throwing only on an empty slot; otherwise it is undefined |
| Re.Component.ImmutableState | src/re.js:82-84 | the instance's getter is `ImmutableStateOf` on its mode and current slot |
| ReProperties.ConstructionChecks | src/re.js:16-35 | the dev no-reducer error happens iff there is no static reducer and no reducer method, and names the component as the constructor reads it; exactly one deprecation warning, with that name, iff dev and a reducer method |
| ReProperties.ClassFieldDisplayName | src/re.js:14 | a class-field `displayName` is not yet there when the constructor names the component (it uses the class name), yet it names the component in every later error (src/re.js:45, 108, 136) |
| ReProperties.ClassFieldReducer | src/re.js:16-35 | a class-field reducer is invisible to the constructor: alone it fails the dev check, beside a static reducer it draws no warning, and `send` still calls it (src/re.js:100-101) |
| ReProperties.ClassFieldInitializerIgnored | src/re.js:68-85 | a class-field `initialImmutableState` is never called: the state is not wrapped and the getter is undefined |
| ReProperties.InitialImmutableStateReadable | src/re.js:68-84 | with `initialImmutableState` the slot is `{immutableState: init(props)}` and the getter returns `init(props)` |
| ReProperties.PropertyReducerTakesPrecedence | src/re.js:100-104 | a property reducer is the one called, whatever the static reducer is |
| ReProperties.SendNoUpdate | src/re.js:119-122 | plain state: NoUpdate: slot unchanged, no render, no side effect |
| ReProperties.SendUpdate | src/re.js:123-125 | plain state: Update(s): the host gets `s`, so a non-empty `s` becomes the state with one render; no side effect |
| ReProperties.SendSideEffects | src/re.js:126-129 | plain state: SideEffects(f): slot unchanged, no render, `f` called once after commit |
| ReProperties.SendUpdateWithSideEffects | src/re.js:130-133 | plain state: UpdateWithSideEffects(s, f): the host gets `s`, so a non-empty `s` becomes the state with one render; then `f` is called once |
| ReProperties.EveryConstructorHandled | src/re.js:119-133 | every constructor's result has a known tag and takes its own non-default branch, in any mode |
| ReProperties.UndefinedResultThrows | src/re.js:106-119 | an `undefined` result aborts the send with the returned-undefined error in dev, and with a TypeError in production |
| ReProperties.UnknownTag | src/re.js:134-148 | an unknown tag aborts with the invalid-result error in dev; in production the updater returns the state it was given |
| ReProperties.MissingReducerThrowsOnSend | src/re.js:100-104 | without any reducer (a production-only possibility) every send throws a TypeError |
| ReProperties.WrappedSendWrapsOnce | src/re.js:73-81 | a wrapped send fails exactly as the plain updater on the unwrapped value fails, and otherwise commits `{immutableState: x}` (x being what the plain updater returns) with a render and the same callback |
| ReProperties.WrappedUpdateRoundTrip | src/re.js:73-84 | wrapped mode: Update(v) leaves `{immutableState: v}`, wrapped once, and the getter returns `v` |
| ReProperties.WrappedNoUpdateStoresNull | src/re.js:73-81 | wrapped mode: NoUpdate/SideEffects leave `{immutableState: null}` with a render, and the getter then reads null |
| ReProperties.NoUpdateNeverRenders | src/re.js:120-122 | plain state: a reducer that always answers NoUpdate causes no render and no change over any number of sends |
| ReProperties.SideEffectsCallOncePerSend | src/re.js:126-129 | plain state: a reducer that always answers SideEffects(f) calls `f` exactly once per send, in order, with no render |
| ReProperties.IncrementsAddUp | __tests__/ReComponent-test.js:43-47 | for any component whose every send takes `{count: j}` to `{count: j + 1}` with one render, n sends from `{count: k}` give `{count: k + n}` and n renders |
| ReProperties.CounterCounts | __tests__/ReComponent-test.js:15-47 | n clicks on the counter from `{count: k}` give `{count: k + n}` and n renders |
| ReProperties.ClickCounter | __tests__/ReComponent-test.js:43-79 | on a dev instance two clicks give `{count: 1}` then `{count: 2}`, and a direct `setState` throws and leaves the count alone |
| Legacy.NoUpdate | src/index.js:10-14 | the older constructor builds the same object as the current NoUpdate, tag 0 |
| Legacy.Update | src/index.js:16-21 | the same object as the current Update, tag 1, carrying the state |
| Legacy.SideEffects | src/index.js:23-28 | the same object as the current SideEffects, tag 2, carrying the function |
| Legacy.UpdateWithSideEffects | src/index.js:30-36 | the same object as the current UpdateWithSideEffects, tag 3, carrying both |
| Legacy.Construct | src/index.js:42-51 | `new` fails with the no-reducer error exactly when development mode finds no reducer function |
| Legacy.ReComponent.constructor | src/index.js:39-103 | once the reducer check has passed: `setState` lockout (dev only), wrapped mode iff an `initialState` method returns an immutable value, and the initial slot |
| Legacy.SelectsWrapped | src/index.js:72-86 | the wrapped representation is chosen exactly when `initialState` is a method and returns an object with a truthy Immutable.js sentinel |
| Legacy.Reduce | src/index.js:115 | the reducer call fails, with a TypeError, exactly when the instance has no reducer |
| Legacy.Interpret | src/index.js:117-157 | the updater fails exactly on a nullish result, or in dev on one without a known tag, with the matching error; only the two side-effect tags stage a side effect; only the two update tags hand back anything but the given state |
| Legacy.ReComponent.RunUpdater | src/index.js:114-158 | the updater's result equals `Updater` |
| Legacy.ReComponent.Send | src/index.js:111-161 | the new slot, render count and thrown error are those of `SendSpec` on the old slot; a called side effect is logged with the already committed state |
| Legacy.ReComponent.CallSender | src/index.js:172-179 | the sender forwards only its first argument as `payload` |
| Legacy.ReComponent.SetState | src/index.js:58-67 | after a dev construction it throws the setState error and changes nothing |
| Legacy.ReComponent.ImmutableState | src/index.js:97-99 | the instance's getter is `ImmutableStateOf` on its mode and current slot: `state.immutableState` in wrapped mode, throwing only on an empty slot, otherwise undefined |
| LegacyProperties.ConstructionChecks | src/index.js:42-51 | the dev no-reducer error happens iff the instance has no reducer method, and names the component as the constructor reads it |
| LegacyProperties.ClassFieldDisplayName | src/index.js:44 | the class name wins; only without one does a class-field `displayName` make the constructor's name (empty) differ from the later ones (src/index.js:60, 119, 145) |
| LegacyProperties.ClassFieldReducer | src/index.js:42-51 | a class-field reducer is invisible to the constructor, so dev rejects the component; in production `send` calls it (src/index.js:115) |
| LegacyProperties.InitialRepresentation | src/index.js:72-103 | an immutable initial value is stored as `{immutableState: v}` with the getter returning `v`; any other value is the state itself |
| LegacyProperties.NoInitialStateLeavesStateAlone | src/index.js:69-72 | without an `initialState` method (absent or a class field) the state is whatever the subclass sets, never wrapped |
| LegacyProperties.PlainObjectTakesPlainPath | src/index.js:86-103 | a plain object without sentinel keys is stored as the state itself |
| LegacyProperties.SendNoUpdate | src/index.js:130-132 | NoUpdate hands the state back: its value is kept, no side effect runs, and the host still renders a non-empty slot |
| LegacyProperties.SendUpdate | src/index.js:133-135 | plain state: Update(s): the host gets `s`; no side effect |
| LegacyProperties.SendSideEffects | src/index.js:136-138 | SideEffects(f): state value kept, `f` called once with no argument |
| LegacyProperties.SendUpdateWithSideEffects | src/index.js:139-142 | plain state: UpdateWithSideEffects(s, f): the host gets `s`, then `f` is called once |
| LegacyProperties.OnlyEffectResultsCall | src/index.js:130-142 | after NoUpdate or Update nothing is called, whatever else the result carries |
| LegacyProperties.DevelopmentRejectsBadResults | src/index.js:117-154 | in dev, `undefined` aborts with the returned-undefined error and an unknown tag with the invalid-result error |
| LegacyProperties.ProductionToleratesUnknownTag | src/index.js:143-157 | in production an unknown tag hands the state back and calls nothing |
| LegacyProperties.WrappedSendWrapsOnce | src/index.js:88-96 | a wrapped send fails exactly as the plain updater on the unwrapped value fails, and otherwise commits `{immutableState: x}` with a render and the same callback |
| LegacyProperties.WrappedNoUpdateKeepsValue | src/index.js:86-103 | wrapped mode: NoUpdate re-wraps the unwrapped state, so the getter still returns the old value |
| LegacyProperties.WrappedUpdateRoundTrip | src/index.js:86-103 | wrapped mode: Update(v) leaves `{immutableState: v}` and the getter returns `v` |
| LegacyProperties.RecordCounterClick | __tests__/index-test.js:77-115 | an Immutable.js record from `initialState` selects wrapped state, and one click leaves `{immutableState: {count: 1}}` |

## Left out

- React itself is not modelled: rendering, reconciliation, batching, and
  when exactly an updater runs. It is reduced to "apply the updater,
  replace the slot when the result is not null/undefined, then run the
  callback". React's shallow merge of the returned object into the old
  state is not modelled either. The returned object replaces the state,
  which is exact for the wrapper objects and for reducers that return
  whole states.
- The `PureComponent` comparison that can skip a render is not modelled.
  `renders` counts slot replacements, each of which schedules one re-render.
- An error thrown by the updater aborts the whole send: nothing is
  committed and nothing is called. Where React would surface that error
  (synchronously or during a batched render) is not modelled.
- Reducers, initializers and side effects are pure functions or opaque ids.
  A reducer that throws, and what a side effect does with the instance, are
  not modelled.
- Exact message texts and `console.warn` are not modelled. Errors and
  warnings are kinds that carry the component's name. Warnings are kept on
  the instance.
- `process.env.NODE_ENV` and `__DEV__` are not modelled as globals. Each is
  the constructor's `dev` flag.
- The `Object.defineProperty` getter is modelled as the function
  `ImmutableState()`. Without the wrapped mode the property reads as
  undefined.
- JavaScript numbers are integers here. Floating point, NaN and `-0` are
  not modelled. Primitives are taken to have none of the properties the
  core reads.
- Instance members are fixed once construction is over. A `reducer`
  assigned in the subclass constructor after `super(props)` behaves like a
  class field and is modelled as one. Reassigning `reducer` between sends
  is not modelled.
- `createSender` returns a closure; the model has `CallSender(type, args)`,
  which is calling that closure.
- `src/process.js` and `src/invariant.js` (an unrelated actor-model
  prototype) are not part of this model. Neither are the type definitions
  or the rendering side of the tests.
