/** The helpers used together, as a duck uses them: type strings from
    `makeTypes` handed to `asyncMac` / `subscribeMac`, and reducers from
    `createReducer` composed by `reduceReducers`. */
module Ducks {
  import opened Values
  import opened TypeFactory
  import opened ActionCreators
  import opened Reducers

  /** The async types of `makeTypes` drive `asyncMac`: `start`, `success` and
      `error` carry `mod/name-start`, `-success` and `-error`, whether or not
      `sub` is also set. */
  lemma AsyncPipeline(mod: string, name: string, sub: bool, args: seq<Value>)
    ensures var creators := AsyncMac(MakeTypes(mod, name, true, sub).fields);
      && Call(creators.start, args) == map["type" := Str(Namespaced(mod, name) + "-start")]
      && Call(creators.success, args)
         == map["type" := Str(Namespaced(mod, name) + "-success"), "payload" := ArgAt(args, 0)]
      && Call(creators.error, args)
         == map["type" := Str(Namespaced(mod, name) + "-error"), "error" := ArgAt(args, 0)]
  {
    AsyncMacActions(MakeTypes(mod, name, true, sub).fields, args);
  }

  /** As written, `makeTypes(mod)(name, false, true)` stores the unsubscribe
      type under `UNSUSCRIBE` while `subscribeMac` reads `UNSUBSCRIBE`, so the
      `unsubscribe` creator of that pair tags its action "undefined" instead
      of `mod/name-unsubscribe`. */
  lemma UnsubscribeTypeLost(mod: string, name: string, args: seq<Value>)
    ensures Call(SubscribeMac(MakeTypes(mod, name, false, true).fields).unsubscribe, args)
      == map["type" := Str("undefined")]
    ensures Str("undefined") != Str(Namespaced(mod, name) + "-unsubscribe")
  {
  }

  /** With the key spelt `UNSUBSCRIBE`, the three subscription creators carry
      `mod/name-subscribe-add-entity`, `-subscribe` and `-unsubscribe`: three
      distinct types, each an extension of `mod/name`. */
  lemma SubscribePipelineIntended(mod: string, name: string, args: seq<Value>)
    ensures var creators := SubscribeMac(MakeTypesIntended(mod, name, false, true).fields);
      && Call(creators.add, args) == map["type" := Str(Namespaced(mod, name) + "-subscribe-add-entity")]
      && Call(creators.subscribe, args) == map["type" := Str(Namespaced(mod, name) + "-subscribe")]
      && Call(creators.unsubscribe, args) == map["type" := Str(Namespaced(mod, name) + "-unsubscribe")]
      && creators.add.tag != creators.subscribe.tag
      && creators.add.tag != creators.unsubscribe.tag
      && creators.subscribe.tag != creators.unsubscribe.tag
  {
  }

  /** Composed reducers from `createReducer`, none of which handles the
      action's type, leave a defined state unchanged. */
  lemma ComposedIgnoresUnknown<S>(slices: seq<(S, Handlers<S>)>, s: S, action: Action, extra: seq<Value>)
    requires forall i :: 0 <= i < |slices| ==> ActionType(action) !in slices[i].1
    ensures ReduceReducers(seq(|slices|, i requires 0 <= i < |slices| => AsReducer(slices[i].0, slices[i].1)),
                           Some(s), action, extra) == Some(s)
  {
    var rs := seq(|slices|, i requires 0 <= i < |slices| => AsReducer(slices[i].0, slices[i].1));
    forall i | 0 <= i < |rs| ensures rs[i](Some(s), action, extra) == Some(s) {
      AsReducerIgnoresUnknown(slices[i].0, slices[i].1, s, action, extra);
    }
    ReduceReducersFixpoint(rs, Some(s), action, extra);
  }

  /** An action built by a creator is routed to the handler of the creator's
      tag, unless a field name overwrites `type`. */
  lemma CreatedActionDispatches<S>(init: S, handlers: Handlers<S>, state: Option<S>, c: Creator, args: seq<Value>)
    requires "type" !in NameSet(c.argNames)
    ensures ActionType(Call(c, args)) == c.tag
    ensures c.tag in handlers ==>
      CreateReducer(init, handlers, state, Call(c, args)) == handlers[c.tag](Current(init, state), Call(c, args))
    ensures c.tag !in handlers ==> CreateReducer(init, handlers, state, Call(c, args)) == Some(Current(init, state))
  {
    MacTypeKept(c.tag, c.argNames, args);
  }

  /** A handler that returns `undefined` hands the next composed reducer an
      undefined state, which that reducer replaces by its own initial state. */
  lemma UndefinedResetsNext<S>(init1: S, h1: Handlers<S>, init2: S, h2: Handlers<S>,
                                   state: Option<S>, action: Action, extra: seq<Value>)
    requires ActionType(action) in h1 && h1[ActionType(action)](Current(init1, state), action) == None
    requires ActionType(action) !in h2
    ensures ReduceReducers([AsReducer(init1, h1), AsReducer(init2, h2)], state, action, extra) == Some(init2)
  {
  }

  /** The test "makes a type": `makeTypes('users')('action-type')` with
      neither flag is "users/action-type". */
  lemma MakesATypeTest()
    ensures MakeTypes("users", "action-type", false, false) == Single("users/action-type")
  {
  }

  /** The test "make async type": with `async` the record of
      "users/async-type-error", "-start" and "-success". */
  lemma MakeAsyncTypeTest()
    ensures MakeTypes("users", "async-type", true, false)
      == Record(map["ERROR" := "users/async-type-error", "START" := "users/async-type-start",
                    "SUCCESS" := "users/async-type-success"])
  {
    var t := Namespaced("users", "async-type");
    assert t + "-error" == "users/async-type-error";
    assert t + "-start" == "users/async-type-start";
    assert t + "-success" == "users/async-type-success";
  }

  /** The test "creates an async action": `asyncMac` on those types;
      `start()`, `success(['user1'])` and `error('some error')`. */
  lemma AsyncActionTest()
    ensures Call(AsyncMac(MakeTypes("users", "async-type", true, false).fields).start, [])
      == map["type" := Str("users/async-type-start")]
    ensures Call(AsyncMac(MakeTypes("users", "async-type", true, false).fields).success, [List([Str("user1")])])
      == map["payload" := List([Str("user1")]), "type" := Str("users/async-type-success")]
    ensures Call(AsyncMac(MakeTypes("users", "async-type", true, false).fields).error, [Str("some error")])
      == map["error" := Str("some error"), "type" := Str("users/async-type-error")]
  {
    var types := map["ERROR" := "users/async-type-error", "START" := "users/async-type-start",
                     "SUCCESS" := "users/async-type-success"];
    MakeAsyncTypeTest();
    AsyncMacActions(types, []);
    AsyncMacActions(types, [List([Str("user1")])]);
    AsyncMacActions(types, [Str("some error")]);
  }

  /** The test "creates a simple action": `mac('my-action', 'payload')(1)`. */
  lemma MacScenario()
    ensures Call(Creator("my-action", ["payload"]), [Num(1)]) == map["payload" := Num(1), "type" := Str("my-action")]
  {
    assert "payload" != ProtoKey;
    MacOneField("my-action", "payload", [Num(1)]);
  }

  /** The test "creates a reducer": initial state `{a: 1}`, a handler for
      "my-action" copying the payload into `b`, run on an undefined state. */
  lemma CreateReducerScenario()
    ensures var handlers: Handlers<map<string, Value>> :=
        map["my-action" := (s: map<string, Value>, a: Action) => Some(s["b" := Get(a, "payload")])];
      CreateReducer(map["a" := Num(1)], handlers, None, map["type" := Str("my-action"), "payload" := Num(2)])
        == Some(map["a" := Num(1), "b" := Num(2)])
  {
  }

  /** The test "reduce reducers": two reducers composed; only the second
      handles "my-action-2". */
  lemma ReduceReducersScenario()
    ensures
      var r1 := AsReducer(map[], map["my-action" := (s: map<string, Value>, a: Action) => Some(s["a" := Get(a, "payload")])]);
      var r2 := AsReducer(map[], map["my-action-2" := (s: map<string, Value>, a: Action) => Some(s["b" := Get(a, "payload")])]);
      ReduceReducers([r1, r2], Some(map["a" := Num(1), "b" := Num(2)]),
                     map["type" := Str("my-action-2"), "payload" := Num(3)], [])
        == Some(map["a" := Num(1), "b" := Num(3)])
  {
    var r1 := AsReducer(map[], map["my-action" := (s: map<string, Value>, a: Action) => Some(s["a" := Get(a, "payload")])]);
    var r2 := AsReducer(map[], map["my-action-2" := (s: map<string, Value>, a: Action) => Some(s["b" := Get(a, "payload")])]);
    var action := map["type" := Str("my-action-2"), "payload" := Num(3)];
    assert ActionType(action) == "my-action-2";
    assert "my-action-2" != "my-action" by { assert |"my-action-2"| != |"my-action"|; }
    ReduceReducersPair(r1, r2, Some(map["a" := Num(1), "b" := Num(2)]), action, []);
    assert map["a" := Num(1), "b" := Num(2)]["b" := Num(3)] == map["a" := Num(1), "b" := Num(3)];
  }
}
