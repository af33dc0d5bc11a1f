/** The JavaScript values the request handlers inspect and rewrite: JSON data
    from request bodies and platform answers, plus the two SDK objects the
    handlers store into such data (addresses and identities). */
module Js {
  import opened Sdk
  import opened Results

  datatype Value =
    | Undefined
    | Null
    | Bool(b: bool)
    | Num(n: int)
    | NaN
    | Str(s: string)
    | Arr(items: seq<Value>)
    | Obj(props: map<string, Value>)
    | Addr(address: Address)
    | Ident(identity: Identity)

  /** JavaScript falsiness: what `!v` is true of. */
  predicate Falsy(v: Value) {
    match v
    case Undefined | Null | NaN => true
    case Bool(b) => !b
    case Num(n) => n == 0
    case Str(s) => s == ""
    case _ => false
  }

  predicate Truthy(v: Value) {
    !Falsy(v)
  }

  /** `undefined` and `null`, the values whose property access throws. */
  predicate Nullish(v: Value) {
    v.Undefined? || v.Null?
  }

  /** Property `key` of a plain object, `undefined` when absent. */
  function Field(props: map<string, Value>, key: string): Value {
    if key in props then props[key] else Undefined
  }

  /** The name of the property holding an address object's hex form. */
  const HexKey: string := "_hex"

  /** `v[key]`: throws on `undefined` and `null`. Primitives and arrays carry
      none of the property names the handlers read. */
  function Get(v: Value, key: string): (r: Result<Value>)
    ensures r.Thrown? <==> Nullish(v)
    ensures r.Thrown? ==> r.failure == TypeError
  {
    match v
    case Undefined | Null => Thrown(TypeError)
    case Obj(props) => Ok(Field(props, key))
    case Addr(a) => Ok(if key == HexKey then Str(a.hex) else Undefined)
    case _ => Ok(Undefined)
  }

  /** `v[key] = x` in sloppy mode: throws on `undefined` and `null`, and a
      write to a primitive is silently dropped. */
  function Set(v: Value, key: string, x: Value): (r: Result<Value>)
    ensures r.Thrown? <==> Nullish(v)
    ensures r.Thrown? ==> r.failure == TypeError
    ensures r.Ok? ==> Get(r.value, key) == if v.Obj? then Ok(x) else Get(v, key)
    ensures r.Ok? ==> forall k :: k != key ==> Get(r.value, k) == Get(v, k)
  {
    match v
    case Undefined | Null => Thrown(TypeError)
    case Obj(props) => Ok(Obj(props[key := x]))
    case _ => Ok(v)
  }

  /** `xs.forEach((_, i, a) => a[i] = f(a[i]))`: rewrites every element in
      order and stops at the first element whose rewrite throws. */
  function RewriteEach(xs: seq<Value>, f: Value -> Result<Value>): (r: Result<seq<Value>>)
    ensures r.Ok? <==> forall i :: 0 <= i < |xs| ==> f(xs[i]).Ok?
    ensures r.Ok? ==> |r.value| == |xs|
    ensures r.Ok? ==> forall i :: 0 <= i < |xs| ==> r.value[i] == f(xs[i]).value
    ensures r.Thrown? ==> exists i :: 0 <= i < |xs| && f(xs[i]) == Thrown(r.failure)
  {
    if xs == [] then Ok([])
    else
      var y :- f(xs[0]);
      var ys :- RewriteEach(xs[1..], f);
      assert forall i :: 1 <= i < |xs| ==> xs[i] == xs[1..][i - 1];
      Ok([y] + ys)
  }

  /** `v.forEach(...)` on a value that must be an array: any other value has
      no `forEach` method and the call throws. */
  function RewriteArray(v: Value, f: Value -> Result<Value>): (r: Result<seq<Value>>)
    ensures !v.Arr? ==> r == Thrown(TypeError)
    ensures r.Ok? <==> v.Arr? && forall i :: 0 <= i < |v.items| ==> f(v.items[i]).Ok?
    ensures r.Ok? ==> |r.value| == |v.items|
    ensures r.Ok? ==> forall i :: 0 <= i < |v.items| ==> r.value[i] == f(v.items[i]).value
  {
    if v.Arr? then RewriteEach(v.items, f) else Thrown(TypeError)
  }
}
