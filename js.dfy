/** The JavaScript values that cross the model's boundaries (parsed JSON and request
    fields), with the language rules the source relies on: truthiness, property access,
    optional chaining and conversion to a string. */
module Js {
  import opened Wrappers
  import Text

  /** A JSON value, plus `undefined` for an absent field. Objects keep their members in
      source order; numbers are integers. */
  datatype Value =
    | Undefined
    | Null
    | Bool(b: bool)
    | Num(n: int)
    | Str(s: string)
    | Arr(items: seq<Value>)
    | Obj(fields: seq<(string, Value)>)

  /** JavaScript's truthiness: `undefined`, `null`, `false`, `0` and `''` are falsy. */
  predicate Truthy(v: Value) {
    match v
    case Undefined => false
    case Null => false
    case Bool(b) => b
    case Num(n) => n != 0
    case Str(s) => s != ""
    case Arr(_) => true
    case Obj(_) => true
  }

  predicate Nullish(v: Value) {
    v.Undefined? || v.Null?
  }

  /** The member `key` of an object's field list; when a key occurs twice the later
      binding wins, as with `JSON.parse`. */
  function Lookup(fields: seq<(string, Value)>, key: string): (r: Value)
    ensures r != Undefined ==> exists i :: 0 <= i < |fields| && fields[i] == (key, r)
    ensures (forall i :: 0 <= i < |fields| ==> fields[i].0 != key) ==> r == Undefined
    ensures (exists i :: 0 <= i < |fields| && fields[i].0 == key) ==>
      exists i :: 0 <= i < |fields| && fields[i] == (key, r)
        && forall j :: i < j < |fields| ==> fields[j].0 != key
  {
    if fields == [] then Undefined
    else if fields[|fields| - 1].0 == key then fields[|fields| - 1].1
    else Lookup(fields[..|fields| - 1], key)
  }

  /** `v.key`; `None` when the access throws a TypeError (`v` is null or undefined).
      Named properties of arrays and strings (such as `length`) are not modelled. */
  function Member(v: Value, key: string): (r: Option<Value>)
    ensures r.None? <==> Nullish(v)
  {
    match v
    case Undefined => None
    case Null => None
    case Obj(fields) => Some(Lookup(fields, key))
    case _ => Some(Undefined)
  }

  /** `v[0]`; `None` when the access throws a TypeError. */
  function First(v: Value): (r: Option<Value>)
    ensures r.None? <==> Nullish(v)
  {
    match v
    case Undefined => None
    case Null => None
    case Arr(items) => Some(if items == [] then Undefined else items[0])
    case Str(s) => Some(if s == "" then Undefined else Str([s[0]]))
    case Obj(fields) => Some(Lookup(fields, "0"))
    case _ => Some(Undefined)
  }

  /** `v?.key`: never throws. */
  function OptMember(v: Value, key: string): (r: Value)
    ensures Nullish(v) ==> r == Undefined
    ensures !Nullish(v) ==> Some(r) == Member(v, key)
  {
    match Member(v, key)
    case None => Undefined
    case Some(r) => r
  }

  /** `v?.[0]`: never throws. */
  function OptFirst(v: Value): (r: Value)
    ensures Nullish(v) ==> r == Undefined
    ensures !Nullish(v) ==> Some(r) == First(v)
  {
    match First(v)
    case None => Undefined
    case Some(r) => r
  }

  /** `String(v)`, the conversion `+` and template literals apply: an array joins its
      elements with `,` (null and undefined elements as empty), an object gives
      `[object Object]`. */
  function ToJsString(v: Value): (r: string)
    ensures v.Str? ==> r == v.s
    decreases v, 1
  {
    match v
    case Undefined => "undefined"
    case Null => "null"
    case Bool(b) => if b then "true" else "false"
    case Num(n) => Text.IntString(n)
    case Str(s) => s
    case Arr(items) => JoinFrom(v, 0)
    case Obj(_) => "[object Object]"
  }

  /** The elements of array `a` from index `i` on, converted and joined with `,`. */
  function JoinFrom(a: Value, i: nat): string
    requires a.Arr? && i <= |a.items|
    decreases a, 0, |a.items| - i
  {
    if i == |a.items| then ""
    else
      var e := a.items[i];
      var head := if Nullish(e) then "" else ToJsString(e);
      if i + 1 == |a.items| then head else head + "," + JoinFrom(a, i + 1)
  }

  /** A value caught by a `catch` clause. */
  datatype Thrown = ErrorObject(message: string) | OtherThrown

  /** `error instanceof Error ? error.message : 'Unknown error'`. */
  function ErrorMessage(t: Thrown): (r: string)
    ensures t.ErrorObject? ==> r == t.message
    ensures t.OtherThrown? ==> r == "Unknown error"
  {
    match t
    case ErrorObject(m) => m
    case OtherThrown => "Unknown error"
  }
}
