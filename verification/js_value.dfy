/**
  JavaScript values as they reach the repository fetcher: the arguments it is
  called with and the JSON-decoded GraphQL response. Only the parts of the
  language the fetcher relies on are modelled: truthiness, property reads,
  optional chaining (`?.`) and the `||` operator.
 */
module JsValue {

  /** A JavaScript value. Numbers are reals (NaN is not modelled); arrays and
      plain objects are immutable snapshots of decoded JSON. */
  datatype Value =
    | Undefined
    | Null
    | Bool(b: bool)
    | Num(n: real)
    | Str(s: string)
    | Arr(elems: seq<Value>)
    | Obj(props: map<string, Value>)

  /** ToBoolean: `undefined`, `null`, `false`, `0` and `""` are falsy; every
      other value, including every array and object, is truthy. */
  predicate Truthy(v: Value) {
    match v
    case Undefined => false
    case Null => false
    case Bool(b) => b
    case Num(n) => n != 0.0
    case Str(s) => s != ""
    case Arr(_) => true
    case Obj(_) => true
  }

  /** The values on which a property read throws a TypeError. */
  predicate Nullish(v: Value) {
    v.Undefined? || v.Null?
  }

  /** The property read `v.key` on a value that is not nullish. A missing own
      property reads as `undefined`; so does any property of a primitive or an
      array. This is faithful for keys that no prototype defines (not `length`,
      not an array index), which covers every key the fetcher reads. */
  function Get(v: Value, key: string): Value
    requires !Nullish(v)
  {
    if v.Obj? && key in v.props then v.props[key] else Undefined
  }

  /** Optional chaining `v?.key`: `undefined` when `v` is nullish. */
  function OptionalGet(v: Value, key: string): Value {
    if Nullish(v) then Undefined else Get(v, key)
  }

  /** The binary operator `a || b`: the left operand when it is truthy,
      otherwise the right one (which is then returned as it is, falsy or not). */
  function Or(a: Value, b: Value): Value {
    if Truthy(a) then a else b
  }

  /** The chain `vs[0] || vs[1] || ... || vs[n-1]`, which JavaScript parses
      left-nested: `((vs[0] || vs[1]) || ...) || vs[n-1]`. Its value is the
      first truthy operand, or the last operand when none is truthy. */
  function OrChain(vs: seq<Value>): (r: Value)
    requires |vs| > 0
    ensures r in vs
    ensures Truthy(r) <==> exists i :: 0 <= i < |vs| && Truthy(vs[i])
    ensures forall i :: 0 <= i < |vs| && Truthy(vs[i]) && NoneTruthy(vs[..i]) ==> r == vs[i]
    ensures NoneTruthy(vs) ==> r == vs[|vs| - 1]
  {
    if |vs| == 1 then vs[0]
    else
      var init := vs[..|vs| - 1];
      assert forall i :: 0 <= i < |init| ==> init[..i] == vs[..i];
      Or(OrChain(init), vs[|vs| - 1])
  }

  /** No element of `vs` is truthy. */
  predicate NoneTruthy(vs: seq<Value>) {
    forall i :: 0 <= i < |vs| ==> !Truthy(vs[i])
  }
}
