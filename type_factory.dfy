/** `makeTypes(mod)(type, async, sub)`: the action-type strings of one duck. */
module TypeFactory {

  /** What `makeTypes(mod)(type, ...)` returns: a bare string, or an object
      from upper-case keys to type strings. */
  datatype TypeSet = Single(tag: string) | Record(fields: map<string, string>)

  /** The plain type string `mod/type`. */
  function Namespaced(mod: string, name: string): string
  {
    mod + "/" + name
  }

  /** No two keys of the record name the same type string. */
  predicate Injective(fields: map<string, string>)
  {
    forall k1, k2 :: k1 in fields && k2 in fields && k1 != k2 ==> fields[k1] != fields[k2]
  }

  /** Every type string of the record extends `t` with a non-empty suffix. */
  predicate AllExtend(fields: map<string, string>, t: string)
  {
    forall k :: k in fields ==> |t| < |fields[k]| && fields[k][..|t|] == t
  }

  /** Appending different suffixes to one prefix gives different strings. */
  lemma AppendCancel(t: string, a: string, b: string)
    requires t + a == t + b
    ensures a == b
  {
    assert a == (t + a)[|t|..];
    assert b == (t + b)[|t|..];
  }

  /** `makeTypes` with the key under which the unsubscribe type is stored
      left open: the source stores it under `unsubscribeKey == "UNSUSCRIBE"`. */
  function TypesWith(mod: string, name: string, async: bool, sub: bool, unsubscribeKey: string): (r: TypeSet)
    requires unsubscribeKey !in {"ADD", "SUBSCRIBE"}
    ensures r.Single? <==> !async && !sub
    ensures r.Single? ==> r.tag == Namespaced(mod, name)
    ensures r.Record? ==> AllExtend(r.fields, Namespaced(mod, name)) && Injective(r.fields)
    ensures async ==> r.fields.Keys == {"ERROR", "START", "SUCCESS"}
    ensures !async && sub ==> r.fields.Keys == {"ADD", "SUBSCRIBE", unsubscribeKey}
  {
    var t := Namespaced(mod, name);
    if async then
      var fields := map["ERROR" := t + "-error", "START" := t + "-start", "SUCCESS" := t + "-success"];
      assert "-error" != "-start" && "-error" != "-success" && "-start" != "-success";
      assert t + "-error" != t + "-start" by {
        if t + "-error" == t + "-start" { AppendCancel(t, "-error", "-start"); }
      }
      assert t + "-error" != t + "-success" by {
        if t + "-error" == t + "-success" { AppendCancel(t, "-error", "-success"); }
      }
      assert t + "-start" != t + "-success" by {
        if t + "-start" == t + "-success" { AppendCancel(t, "-start", "-success"); }
      }
      Record(fields)
    else if sub then
      var fields := map["ADD" := t + "-subscribe-add-entity", "SUBSCRIBE" := t + "-subscribe",
                        unsubscribeKey := t + "-unsubscribe"];
      assert t + "-subscribe-add-entity" != t + "-subscribe" by {
        if t + "-subscribe-add-entity" == t + "-subscribe" { AppendCancel(t, "-subscribe-add-entity", "-subscribe"); }
      }
      assert t + "-subscribe-add-entity" != t + "-unsubscribe" by {
        if t + "-subscribe-add-entity" == t + "-unsubscribe" { AppendCancel(t, "-subscribe-add-entity", "-unsubscribe"); }
      }
      assert t + "-subscribe" != t + "-unsubscribe" by {
        if t + "-subscribe" == t + "-unsubscribe" { AppendCancel(t, "-subscribe", "-unsubscribe"); }
      }
      Record(fields)
    else
      Single(t)
  }

  /** `makeTypes(mod)(name, async, sub)` as written: `async` wins over `sub`,
      and the unsubscribe type sits under the misspelt key `UNSUSCRIBE`. */
  function MakeTypes(mod: string, name: string, async: bool, sub: bool): (r: TypeSet)
    ensures r.Single? <==> !async && !sub
    ensures r.Single? ==> r.tag == Namespaced(mod, name)
    ensures r.Record? ==> AllExtend(r.fields, Namespaced(mod, name)) && Injective(r.fields)
    ensures async ==> r.fields == map["ERROR" := Namespaced(mod, name) + "-error",
                                      "START" := Namespaced(mod, name) + "-start",
                                      "SUCCESS" := Namespaced(mod, name) + "-success"]
    ensures !async && sub ==>
      && r.fields.Keys == {"ADD", "SUBSCRIBE", "UNSUSCRIBE"}
      && "UNSUBSCRIBE" !in r.fields
      && r.fields["ADD"] == Namespaced(mod, name) + "-subscribe-add-entity"
      && r.fields["SUBSCRIBE"] == Namespaced(mod, name) + "-subscribe"
      && r.fields["UNSUSCRIBE"] == Namespaced(mod, name) + "-unsubscribe"
  {
    TypesWith(mod, name, async, sub, "UNSUSCRIBE")
  }

  /** `makeTypes` as evidently intended: the unsubscribe type under the key
      `UNSUBSCRIBE`, which is where `subscribeMac` and the typings look;
      without `sub` alone it agrees with the original. */
  function MakeTypesIntended(mod: string, name: string, async: bool, sub: bool): (r: TypeSet)
    ensures r.Single? <==> !async && !sub
    ensures r.Single? ==> r.tag == Namespaced(mod, name)
    ensures r.Record? ==> AllExtend(r.fields, Namespaced(mod, name)) && Injective(r.fields)
    ensures !(!async && sub) ==> r == MakeTypes(mod, name, async, sub)
    ensures !async && sub ==>
      && r.fields.Keys == {"ADD", "SUBSCRIBE", "UNSUBSCRIBE"}
      && r.fields["ADD"] == Namespaced(mod, name) + "-subscribe-add-entity"
      && r.fields["SUBSCRIBE"] == Namespaced(mod, name) + "-subscribe"
      && r.fields["UNSUBSCRIBE"] == Namespaced(mod, name) + "-unsubscribe"
  {
    TypesWith(mod, name, async, sub, "UNSUBSCRIBE")
  }
}
