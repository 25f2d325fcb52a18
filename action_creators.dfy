/** `mac`, the action-creator factory, and the two fixed bundles built from
    it, `asyncMac` and `subscribeMac`. */
module ActionCreators {
  import opened Values

  /** `args[index]`: a position the caller did not supply reads as `undefined`. */
  function ArgAt(args: seq<Value>, i: nat): Value
  {
    if i < |args| then args[i] else Undefined
  }

  /** The field names that occur in `names`. */
  function NameSet(names: seq<string>): set<string>
  {
    set i | 0 <= i < |names| :: names[i]
  }

  /** `i` is a position of `names` and no later position repeats its name. */
  predicate LastOccurrence(names: seq<string>, i: nat)
  {
    i < |names| && names[i] !in names[i + 1..]
  }

  /** Field `k` of the action once `names` have been bound in order: the last
      binding of `k` wins; a name never bound keeps the initial `type` tag. */
  function FieldValue(tag: string, names: seq<string>, args: seq<Value>, k: string): Value
    decreases |names|
  {
    if |names| == 0 then Str(tag)
    else if names[|names| - 1] == k then ArgAt(args, |names| - 1)
    else FieldValue(tag, names[..|names| - 1], args, k)
  }

  /** The action `mac(tag, ...names)(...args)` returns, field by field: a
      `type` field and one field per name, except `__proto__`, which no
      assignment makes an own field. */
  function MacAction(tag: string, names: seq<string>, args: seq<Value>): Action
  {
    map k | k in ({"type"} + NameSet(names)) - {ProtoKey} :: FieldValue(tag, names, args, k)
  }

  lemma NameSetSnoc(names: seq<string>, x: string)
    ensures NameSet(names + [x]) == NameSet(names) + {x}
  {
    var ns := names + [x];
    forall k | k in NameSet(ns) ensures k in NameSet(names) + {x} {
      var i :| 0 <= i < |ns| && ns[i] == k;
      if i < |names| { assert names[i] == k; }
    }
    forall k | k in NameSet(names) ensures k in NameSet(ns) {
      var i :| 0 <= i < |names| && names[i] == k;
      assert ns[i] == k;
    }
    assert ns[|names|] == x;
  }

  /** Binding one more name is one more assignment `action[name] = args[i]`,
      which leaves the action's own fields as they are for `__proto__`. */
  lemma MacActionSnoc(tag: string, names: seq<string>, args: seq<Value>, x: string)
    ensures x != ProtoKey ==>
      MacAction(tag, names + [x], args) == MacAction(tag, names, args)[x := ArgAt(args, |names|)]
    ensures x == ProtoKey ==> MacAction(tag, names + [x], args) == MacAction(tag, names, args)
  {
    var ns := names + [x];
    NameSetSnoc(names, x);
    assert ns[..|ns| - 1] == names;
    var lhs := MacAction(tag, ns, args);
    if x != ProtoKey {
      var rhs := MacAction(tag, names, args)[x := ArgAt(args, |names|)];
      assert lhs.Keys == rhs.Keys;
      forall k | k in lhs.Keys ensures lhs[k] == rhs[k] {
      }
    } else {
      var rhs := MacAction(tag, names, args);
      assert lhs.Keys == rhs.Keys;
      forall k | k in lhs.Keys ensures lhs[k] == rhs[k] {
      }
    }
  }

  /** `mac(tag, ...argNames)(...args)`: start from `{type: tag}` and assign
      each field name its positional argument, in order. The assignment to
      `__proto__` creates no own field, so the model skips it. */
  method Mac(tag: string, argNames: seq<string>, args: seq<Value>) returns (action: Action)
    ensures action == MacAction(tag, argNames, args)
    ensures action.Keys == ({"type"} + NameSet(argNames)) - {ProtoKey}
  {
    action := map["type" := Str(tag)];
    var index := 0;
    while index < |argNames|
      invariant 0 <= index <= |argNames|
      invariant action == MacAction(tag, argNames[..index], args)
    {
      assert argNames[..index + 1] == argNames[..index] + [argNames[index]];
      MacActionSnoc(tag, argNames[..index], args, argNames[index]);
      if argNames[index] != ProtoKey {
        action := action[argNames[index] := ArgAt(args, index)];
      }
      index := index + 1;
    }
    assert argNames[..index] == argNames;
  }

  lemma {:induction false} FieldValueLast(tag: string, names: seq<string>, args: seq<Value>, i: nat)
    requires LastOccurrence(names, i)
    ensures FieldValue(tag, names, args, names[i]) == ArgAt(args, i)
    decreases |names|
  {
    if i < |names| - 1 {
      var prefix := names[..|names| - 1];
      assert prefix[i] == names[i];
      assert LastOccurrence(prefix, i);
      FieldValueLast(tag, prefix, args, i);
    }
  }

  lemma {:induction false} FieldValueUnbound(tag: string, names: seq<string>, args: seq<Value>, k: string)
    requires k !in NameSet(names)
    ensures FieldValue(tag, names, args, k) == Str(tag)
    decreases |names|
  {
    if |names| > 0 {
      var prefix := names[..|names| - 1];
      assert names[|names| - 1] in NameSet(names);
      assert NameSet(prefix) <= NameSet(names) by {
        forall n | n in NameSet(prefix) ensures n in NameSet(names) {
          var j :| 0 <= j < |prefix| && prefix[j] == n;
          assert names[j] == n;
        }
      }
      FieldValueUnbound(tag, prefix, args, k);
    }
  }

  /** A field name holds the argument at its last position in `names`
      (`undefined` when fewer arguments were passed); a field named `type`
      thereby overwrites the tag. `__proto__` gives no field. */
  lemma MacFieldAt(tag: string, names: seq<string>, args: seq<Value>, i: nat)
    requires LastOccurrence(names, i)
    ensures names[i] != ProtoKey ==>
      names[i] in MacAction(tag, names, args) && MacAction(tag, names, args)[names[i]] == ArgAt(args, i)
    ensures names[i] == ProtoKey ==> names[i] !in MacAction(tag, names, args)
  {
    FieldValueLast(tag, names, args, i);
  }

  /** Unless a field is named `type`, the action's `type` is the tag. */
  lemma MacTypeKept(tag: string, names: seq<string>, args: seq<Value>)
    requires "type" !in NameSet(names)
    ensures MacAction(tag, names, args)["type"] == Str(tag)
  {
    assert "type" != ProtoKey;
    FieldValueUnbound(tag, names, args, "type");
  }

  lemma {:induction false} FieldValueAgree(tag: string, names: seq<string>, args1: seq<Value>, args2: seq<Value>, k: string)
    requires forall i :: 0 <= i < |names| ==> ArgAt(args1, i) == ArgAt(args2, i)
    ensures FieldValue(tag, names, args1, k) == FieldValue(tag, names, args2, k)
    decreases |names|
  {
    if |names| > 0 && names[|names| - 1] != k {
      FieldValueAgree(tag, names[..|names| - 1], args1, args2, k);
    }
  }

  /** Only the first |names| arguments matter: extra arguments are ignored,
      and passing `undefined` explicitly is the same as passing nothing. */
  lemma MacIgnoresExtraArgs(tag: string, names: seq<string>, args1: seq<Value>, args2: seq<Value>)
    requires forall i :: 0 <= i < |names| ==> ArgAt(args1, i) == ArgAt(args2, i)
    ensures MacAction(tag, names, args1) == MacAction(tag, names, args2)
  {
    forall k | k in ({"type"} + NameSet(names)) - {ProtoKey}
      ensures FieldValue(tag, names, args1, k) == FieldValue(tag, names, args2, k)
    {
      FieldValueAgree(tag, names, args1, args2, k);
    }
  }

  /** With no field names, the action is `{type: tag}` whatever the arguments. */
  lemma MacNoFields(tag: string, args: seq<Value>)
    ensures MacAction(tag, [], args) == map["type" := Str(tag)]
  {
  }

  /** With one field name other than `type`, the action is
      `{type: tag, name: args[0]}` (just `{type: tag}` for `__proto__`). */
  lemma MacOneField(tag: string, name: string, args: seq<Value>)
    requires name != "type"
    ensures name != ProtoKey ==> MacAction(tag, [name], args) == map["type" := Str(tag), name := ArgAt(args, 0)]
    ensures name == ProtoKey ==> MacAction(tag, [name], args) == map["type" := Str(tag)]
  {
    assert NameSet([name]) == {name} by {
      assert [name][0] == name;
    }
    MacFieldAt(tag, [name], args, 0);
    MacTypeKept(tag, [name], args);
  }

  /** The closure `mac(tag, ...argNames)`, kept as data. */
  datatype Creator = Creator(tag: string, argNames: seq<string>)

  /** Calling the closure with positional arguments. */
  function Call(c: Creator, args: seq<Value>): Action
  {
    MacAction(c.tag, c.argNames, args)
  }

  /** `${types.KEY}`: a key the object does not have reads as `undefined`,
      which a template literal turns into the string "undefined". */
  function Interpolate(types: map<string, string>, key: string): string
  {
    if key in types then types[key] else "undefined"
  }

  datatype AsyncCreators = AsyncCreators(error: Creator, start: Creator, success: Creator)

  /** `asyncMac(types)`. */
  function AsyncMac(types: map<string, string>): AsyncCreators
  {
    AsyncCreators(
      Creator(Interpolate(types, "ERROR"), ["error"]),
      Creator(Interpolate(types, "START"), []),
      Creator(Interpolate(types, "SUCCESS"), ["payload"]))
  }

  /** `start()` is `{type: START}`, `success(x)` is `{type: SUCCESS, payload: x}`
      and `error(e)` is `{type: ERROR, error: e}`; further arguments are ignored. */
  lemma AsyncMacActions(types: map<string, string>, args: seq<Value>)
    ensures Call(AsyncMac(types).start, args) == map["type" := Str(Interpolate(types, "START"))]
    ensures Call(AsyncMac(types).success, args)
      == map["type" := Str(Interpolate(types, "SUCCESS")), "payload" := ArgAt(args, 0)]
    ensures Call(AsyncMac(types).error, args)
      == map["type" := Str(Interpolate(types, "ERROR")), "error" := ArgAt(args, 0)]
  {
    MacNoFields(Interpolate(types, "START"), args);
    assert "payload" != ProtoKey && "error" != ProtoKey;
    MacOneField(Interpolate(types, "SUCCESS"), "payload", args);
    MacOneField(Interpolate(types, "ERROR"), "error", args);
  }

  datatype SubscribeCreators = SubscribeCreators(add: Creator, subscribe: Creator, unsubscribe: Creator)

  /** `subscribeMac(types)`: three creators without field names. */
  function SubscribeMac(types: map<string, string>): SubscribeCreators
  {
    SubscribeCreators(
      Creator(Interpolate(types, "ADD"), []),
      Creator(Interpolate(types, "SUBSCRIBE"), []),
      Creator(Interpolate(types, "UNSUBSCRIBE"), []))
  }

  /** `add`, `subscribe` and `unsubscribe` each build `{type: ...}` and no other
      field, whatever they are passed: in particular `add` drops its payload. */
  lemma SubscribeMacActions(types: map<string, string>, args: seq<Value>)
    ensures Call(SubscribeMac(types).add, args) == map["type" := Str(Interpolate(types, "ADD"))]
    ensures Call(SubscribeMac(types).subscribe, args) == map["type" := Str(Interpolate(types, "SUBSCRIBE"))]
    ensures Call(SubscribeMac(types).unsubscribe, args) == map["type" := Str(Interpolate(types, "UNSUBSCRIBE"))]
  {
  }
}
