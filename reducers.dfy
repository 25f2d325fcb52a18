/** `createReducer` and `reduceReducers`. */
module Reducers {
  import opened Values

  /** A handler table: action type to `(state, action) => newState`. A
      handler may return `undefined` (`None`). */
  type Handlers<!S> = map<string, (S, Action) -> Option<S>>

  /** The key `handlers.hasOwnProperty(action.type)` looks up: a string type
      is looked up as it is, an action without `type` under "undefined". */
  function ActionType(action: Action): (key: string)
    ensures "type" in action && action["type"].Str? ==> key == action["type"].s
    ensures "type" !in action ==> key == "undefined"
  {
    ToKey(Get(action, "type"))
  }

  /** The default parameter `state = initialState`: only an undefined state
      is replaced. */
  function Current<S>(init: S, state: Option<S>): S
  {
    if state.Some? then state.value else init
  }

  /** `createReducer(init, handlers)(state, action)`. The comparison
      `newState !== state` only decides which of two equal values is
      returned, so the result is always the handler's result, `undefined`
      included. */
  function CreateReducer<S(==)>(init: S, handlers: Handlers<S>, state: Option<S>, action: Action): (r: Option<S>)
    ensures ActionType(action) !in handlers ==> r == Some(Current(init, state))
    ensures ActionType(action) in handlers ==> r == handlers[ActionType(action)](Current(init, state), action)
    ensures state.None? && ActionType(action) !in handlers ==> r == Some(init)
  {
    var s := Current(init, state);
    if ActionType(action) in handlers then
      var newState := handlers[ActionType(action)](s, action);
      if newState != Some(s) then newState else Some(s)
    else
      Some(s)
  }

  /** The reducer `createReducer(init, handlers)` as a function value that
      `reduceReducers` can compose; it ignores extra arguments. */
  function AsReducer<S(==)>(init: S, handlers: Handlers<S>): (Option<S>, Action, seq<Value>) -> Option<S>
  {
    (state: Option<S>, action: Action, extra: seq<Value>) => CreateReducer(init, handlers, state, action)
  }

  /** `reduceReducers(...reducers)(prev, value, ...args)`: `Array.prototype.reduce`
      from the left, each reducer receiving the previous one's state and the
      same `value` and `args`. Equivalently, the last reducer is applied to
      the result of all the others. */
  function ReduceReducers<T, M, X>(reducers: seq<(T, M, X) -> T>, prev: T, value: M, args: X): (r: T)
    ensures |reducers| == 0 ==> r == prev
    ensures |reducers| > 0 ==>
      r == reducers[|reducers| - 1](ReduceReducers(reducers[..|reducers| - 1], prev, value, args), value, args)
    decreases |reducers|
  {
    if |reducers| == 0 then prev
    else
      var n := |reducers|;
      assert n >= 2 ==> reducers[..n - 1][1..] == reducers[1..][..n - 2];
      ReduceReducers(reducers[1..], reducers[0](prev, value, args), value, args)
  }

  /** Composing two lists of reducers threads the state through the first
      list, then the second. */
  lemma {:induction false} ReduceReducersAppend<T, M, X>(rs1: seq<(T, M, X) -> T>, rs2: seq<(T, M, X) -> T>, prev: T, value: M, args: X)
    ensures ReduceReducers(rs1 + rs2, prev, value, args)
      == ReduceReducers(rs2, ReduceReducers(rs1, prev, value, args), value, args)
    decreases |rs1|
  {
    if |rs1| > 0 {
      assert (rs1 + rs2)[1..] == rs1[1..] + rs2;
      assert (rs1 + rs2)[0] == rs1[0];
      ReduceReducersAppend(rs1[1..], rs2, rs1[0](prev, value, args), value, args);
    } else {
      assert rs1 + rs2 == rs2;
    }
  }

  /** `reduceReducers(r1, r2)(s, m, ...args) == r2(r1(s, m, ...args), m, ...args)`. */
  lemma ReduceReducersPair<T, M, X>(r1: (T, M, X) -> T, r2: (T, M, X) -> T, prev: T, value: M, args: X)
    ensures ReduceReducers([r1, r2], prev, value, args) == r2(r1(prev, value, args), value, args)
  {
  }

  /** A state that every reducer leaves as it is for this action is left as
      it is by their composition. */
  lemma {:induction false} ReduceReducersFixpoint<T, M, X>(reducers: seq<(T, M, X) -> T>, s: T, value: M, args: X)
    requires forall i :: 0 <= i < |reducers| ==> reducers[i](s, value, args) == s
    ensures ReduceReducers(reducers, s, value, args) == s
    decreases |reducers|
  {
    if |reducers| > 0 {
      assert reducers[0](s, value, args) == s;
      ReduceReducersFixpoint(reducers[1..], s, value, args);
    }
  }

  /** A reducer built by `createReducer` leaves a defined state as it is for
      an action type it has no handler for, whatever extra arguments it gets. */
  lemma AsReducerIgnoresUnknown<S>(init: S, handlers: Handlers<S>, s: S, action: Action, extra: seq<Value>)
    requires ActionType(action) !in handlers
    ensures AsReducer(init, handlers)(Some(s), action, extra) == Some(s)
  {
  }
}
