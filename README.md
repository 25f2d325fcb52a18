# ducks-maker in Dafny

A model of the Redux "ducks" helpers of `src/index.ts`:

- `makeTypes(mod)(type, async, sub)` builds action-type strings `mod/type`, optionally
  suffixed for an async lifecycle (`-start`, `-success`, `-error`) or a subscription
  lifecycle (`-subscribe-add-entity`, `-subscribe`, `-unsubscribe`);
- `mac(type, ...argNames)(...args)` builds an action object `{type, ...}` binding field
  names to arguments by position, and `asyncMac` / `subscribeMac` are fixed bundles of it;
- `createReducer(initialState, handlers)` dispatches one action to the handler for its
  type, and `reduceReducers(...reducers)` threads a state through several reducers.

Modules, one per component:

- `Values` (`values.dfy`): the JavaScript values that appear in actions (`undefined`,
  `null`, booleans, safe integers, strings, arrays), actions as `map<string, Value>`, a
  missing property reading as `undefined`, and the conversion of a value to a property key.
- `TypeFactory` (`type_factory.dfy`): `makeTypes`, flattened to
  `MakeTypes(mod, name, async, sub)`; its result is a bare string or a record
  `map<string, string>`.
- `ActionCreators` (`action_creators.dfy`): `mac` as the method `Mac`, whose loop assigns
  one field per name in the order of the `forEach`, proved equal to the declarative
  `MacAction` (last binding of a name wins, missing arguments are `undefined`, the name
  `__proto__` gives no own field). A closure
  `mac(tag, ...names)` is kept as data (`Creator`) and called with `Call`.
  `asyncMac` and `subscribeMac` return bundles of creators; `${types.KEY}` on a key the
  record lacks gives the string "undefined" (`Interpolate`).
- `Reducers` (`reducers.dfy`): `createReducer` flattened to
  `CreateReducer(init, handlers, state, action)`, an undefined state (given to the
  reducer or returned by a handler) being `None`;
  `reduceReducers` as a left fold over a sequence of reducer functions.
- `Ducks` (`ducks.dfy`): the helpers used together (types from `makeTypes` fed to the
  bundles, reducers composed) and the scenarios of the repository's tests.

Where the repository disagrees with itself, the code of `src/index.ts` is followed. The
tests at `src/index.spec.ts:45` and `:51` call `.single()` and `.async()` on the result of
`makeTypes(mod)(type)`, but `src/index.ts:20` takes the boolean flags `async` and `sub`
and returns a string or a record with no such methods; the model's scenarios of those
tests pass the flags instead. The typings at `index.d.ts:32-34` give `add` and
`unsubscribe` an argument, but `src/index.ts:64` and `:66` build them with no field
names, so the model's `add` and `unsubscribe` drop whatever they are passed.

## Model

| member | source | states |
|---|---|---|
| Values.ToKey | src/index.ts:3-4 | the property key `action.type` is looked up under: a string type is the key itself |
| Values.NumKeysDistinct | src/index.ts:3-4 | two number types select the same handler exactly when they are equal numbers |
| Values.DecimalRoundTrip | src/index.ts:3-4 | the decimal notation a number type is keyed by reads back as that number |
| Values.IntToStringInjective | src/index.ts:3-4 | distinct integers have distinct decimal notations, so distinct number types have distinct keys |
| TypeFactory.TypesWith | src/index.ts:20-38 | the shape of `makeTypes`'s result for a given key of the unsubscribe type: a bare string exactly when neither flag is set; otherwise a record whose type strings all extend `mod/type` and are pairwise distinct, with keys ERROR/START/SUCCESS when `async` is set, else ADD/SUBSCRIBE/the unsubscribe key |
| TypeFactory.MakeTypes | src/index.ts:19-40 | neither flag: exactly `mod/type`; `async` (whatever `sub`): exactly the record of `-error`, `-start`, `-success` tags; `sub` alone: keys exactly ADD, SUBSCRIBE and the misspelt UNSUSCRIBE (no UNSUBSCRIBE) with `-subscribe-add-entity`, `-subscribe`, `-unsubscribe`; all tags distinct extensions of `mod/type` |
| TypeFactory.MakeTypesIntended | src/index.ts:19-40 | the corrected `makeTypes`: identical to the original unless only `sub` is set (so `mod/type` with no flag, the async record with `async`), and for `sub` alone the three subscription types with the unsubscribe type under UNSUBSCRIBE, all distinct extensions of `mod/type` |
| ActionCreators.Mac | src/index.ts:43-51 | the loop that starts from `{type}` and assigns each field name its positional argument builds exactly the declarative action `MacAction`, whose keys are `type` plus the field names other than `__proto__`; what each field holds is stated by MacFieldAt and MacTypeKept |
| ActionCreators.MacFieldAt | src/index.ts:46-48 | in `MacAction`, a field name holds the argument at its last position in `argNames` (`undefined` when fewer arguments were passed): later bindings win, and a field named `type` overwrites the tag; a name `__proto__` gives no field |
| ActionCreators.MacTypeKept | src/index.ts:45 | in `MacAction`, unless some field name is `type`, the action's `type` is the tag |
| ActionCreators.MacIgnoresExtraArgs | src/index.ts:44-48 | only the first `argNames.length` arguments matter: extra arguments are ignored and an explicit `undefined` is the same as a missing argument |
| ActionCreators.MacNoFields | src/index.ts:43-51 | with no field names the action is `{type: tag}` whatever is passed |
| ActionCreators.MacOneField | src/index.ts:43-51 | with one field name other than `type` the action is `{type: tag, name: args[0]}` (only `{type: tag}` when the name is `__proto__`) |
| ActionCreators.MacActionSnoc | src/index.ts:47 | one loop step, assigning the argument at `index` to the field name at `index`, extends the action built for the names before `index`, and leaves it as it is for `__proto__` |
| ActionCreators.AsyncMacActions | src/index.ts:54-60 | the creators of `AsyncMac`: `start(...)` is exactly `{type: START}`, `success(x, ...)` is `{type: SUCCESS, payload: x}`, `error(e, ...)` is `{type: ERROR, error: e}`, each type read from the record by `Interpolate` |
| ActionCreators.SubscribeMacActions | src/index.ts:62-68 | the creators of `SubscribeMac`: `add`, `subscribe` and `unsubscribe` each return only `{type: ...}` whatever arguments they get, the type read by `Interpolate` from ADD, SUBSCRIBE and UNSUBSCRIBE |
| Reducers.ActionType | src/index.ts:3 | the handler key of an action: its `type` string as it is, "undefined" for an action without `type` |
| Reducers.CreateReducer | src/index.ts:1-11 | an undefined state becomes the initial state; with no handler for the action's type the state is returned unchanged, otherwise the handler's result, `undefined` included, is returned (the `!==` test makes no difference) |
| Reducers.ReduceReducers | src/index.ts:13-17 | no reducers return the previous state; otherwise the result is the last reducer applied to the composition of all the others, with the same action and extra arguments |
| Reducers.ReduceReducersAppend | src/index.ts:13-17 | composing `rs1 ++ rs2` is composing `rs1` and then `rs2` |
| Reducers.ReduceReducersPair | src/index.ts:13-17 | `reduceReducers(r1, r2)(s, m, ...args) == r2(r1(s, m, ...args), m, ...args)` |
| Reducers.ReduceReducersFixpoint | src/index.ts:13-17 | a state every reducer leaves unchanged for an action is left unchanged by their composition |
| Reducers.AsReducerIgnoresUnknown | src/index.ts:2-9 | the reducer `AsReducer` that `createReducer` returns gives back a defined state as it is for an action type it has no handler for, whatever extra arguments it gets |
| Ducks.UndefinedResetsNext | src/index.ts:2-17 | when a handler of the first composed `AsReducer` returns `undefined`, the second, having no handler for the type, returns its own initial state |
| Ducks.CreatedActionDispatches | src/index.ts:3-6 | an action built by `mac(tag, ...names)` (no name `type`) has handler key `tag`, so `createReducer` calls the handler for `tag`, or returns the state unchanged when there is none |
| Ducks.AsyncPipeline | src/index.ts:54-60 | the creators `asyncMac` builds from `makeTypes(mod)(type, true, sub)` tag their actions `mod/type-start`, `-success`, `-error` and carry `payload` / `error` |
| Ducks.UnsubscribeTypeLost | src/index.ts:34 | as written, `Interpolate` finds no UNSUBSCRIBE in `makeTypes(mod)(type, false, true)`, so `subscribeMac(...).unsubscribe()` is `{type: "undefined"}`, not `mod/type-unsubscribe` |
| Ducks.SubscribePipelineIntended | src/index.ts:62-68 | with the corrected key, `add`, `subscribe`, `unsubscribe` carry `-subscribe-add-entity`, `-subscribe`, `-unsubscribe`, three distinct types |
| Ducks.ComposedIgnoresUnknown | src/index.ts:13-17 | composed `createReducer` reducers, none handling the action's type, leave a defined state unchanged |
| Ducks.MakesATypeTest | src/index.spec.ts:43-47 | the test "makes a type": `makeTypes('users')('action-type')` is "users/action-type" |
| Ducks.MakeAsyncTypeTest | src/index.spec.ts:49-57 | the test "make async type": the record of "users/async-type-error", "-start", "-success" |
| Ducks.AsyncActionTest | src/index.spec.ts:67-83 | the test "creates an async action": `start()`, `success(['user1'])` and `error('some error')` give the expected objects |
| Ducks.MacScenario | src/index.spec.ts:59-65 | the test "creates a simple action": `mac('my-action', 'payload')(1)` is `{payload: 1, type: 'my-action'}` |
| Ducks.CreateReducerScenario | src/index.spec.ts:4-17 | the test "creates a reducer": an undefined state, initial `{a: 1}`, handler copying the payload, gives `{a: 1, b: 2}` |
| Ducks.ReduceReducersScenario | src/index.spec.ts:19-41 | the test "reduce reducers": `{a: 1, b: 2}` with "my-action-2" and payload 3 gives `{a: 1, b: 3}` |

## Left out

- Reducers.CreateReducer: the reference comparison `newState !== state` is modelled as value equality; since both branches return a value equal to the handler's result, the choice of which reference is returned is not captured.
- Reducers.ActionType: `action.type` is converted to a property key for safe integers (at most 2^53 - 1 in magnitude, printed in decimal), strings, booleans, `null`, `undefined` and arrays of these; objects, functions, symbols, fractions, larger numbers (exponent notation from 10^21 on) and `NaN`/`Infinity` are not values of the model.
- ActionCreators.Mac: a field name `__proto__` is modelled as creating no own field; the prototype change it causes when the argument is an object or `null` (inherited fields readable through the action) is not modelled.
- Reducers.AsReducer: the state type is opaque and `init` is a defined value; `createReducer` called with an undefined `initialState` is not modelled.
- `hasOwnProperty` is modelled as membership in a finite map; a handler table that shadows `hasOwnProperty` itself, or prototype properties, are not modelled.
- `makeTypes` takes `type` as a string and the flags as booleans: template-literal conversion of other values and JavaScript truthiness of non-boolean flags are not modelled.
- `mac` takes field names as strings; conversion of other values to property keys, and the enumeration order of an object's keys, are not modelled.
- A `null` state is not replaced by the initial state (only `undefined` is); the model's state type is opaque, so this is whatever the caller's `S` holds.
- The Redux store and dispatch that call the reducers are outside the repository and not modelled.
- `dist/index.js` is build output of an older revision (without `sub` and `subscribeMac`) and `index.d.ts` holds only type declarations; neither is part of this model.

## Findings

| source | as written | input that shows it | evidently intended | confidence | as-written member | corrected member |
|---|---|---|---|---|---|---|
| src/index.ts:34 | the subscription record stores the unsubscribe type under `UNSUSCRIBE`, while `subscribeMac` (src/index.ts:66) and the typings read `UNSUBSCRIBE` | `subscribeMac(makeTypes("users")("feed", false, true)).unsubscribe()` gives `{type: "undefined"}` | the key `UNSUBSCRIBE`, so that `unsubscribe()` gives `{type: "users/feed-unsubscribe"}` | high (not executed) | Ducks.UnsubscribeTypeLost | Ducks.SubscribePipelineIntended |
