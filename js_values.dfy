/** The JavaScript values the client's reducers handle: parsed JSON response
  * bodies, the payloads built from them, and the operators the slices apply
  * to them (truthiness, property reads and writes, `===`, `String(v)`). */
module JsValues {
  import opened JsNumbers

  datatype Option<T> = None | Some(value: T)

  /** A JavaScript value. Numbers are integers; objects are plain records of
    * their own fields. */
  datatype Value =
    | Undefined
    | Null
    | Bool(b: bool)
    | Num(n: int)
    | Str(s: string)
    | Arr(elems: seq<Value>)
    | Obj(fields: map<string, Value>)

  /** What `if (v)` and `v || w` test: `[]` and `{}` are truthy, `0` and `""` are not. */
  function Truthy(v: Value): (b: bool)
    ensures b <==> v !in {Undefined, Null, Bool(false), Num(0), Str("")}
  {
    match v
    case Undefined => false
    case Null => false
    case Bool(x) => x
    case Num(n) => n != 0
    case Str(s) => s != ""
    case Arr(_) => true
    case Obj(_) => true
  }

  /** The two values whose properties cannot be read. */
  predicate Nullish(v: Value)
  {
    v.Undefined? || v.Null?
  }

  /** `a || b` */
  function Or(a: Value, b: Value): (r: Value)
    ensures r == a || r == b
    ensures Truthy(r) <==> Truthy(a) || Truthy(b)
    ensures Truthy(a) ==> r == a
  {
    if Truthy(a) then a else b
  }

  /** `Array.isArray(v) ? v : []`, as a list of elements. */
  function ArrayElems(v: Value): (r: seq<Value>)
    ensures v.Arr? ==> r == v.elems
    ensures !v.Arr? ==> r == []
  {
    if v.Arr? then v.elems else []
  }

  /** `v.key`. `None` is the TypeError thrown when `v` is null or undefined; a
    * field an object does not have, and any named field of a primitive or an
    * array, reads as undefined. */
  function Get(v: Value, key: string): (r: Option<Value>)
    ensures r.None? <==> Nullish(v)
    ensures v.Obj? && key in v.fields ==> r == Some(v.fields[key])
    ensures v.Obj? && key !in v.fields ==> r == Some(Undefined)
    ensures !v.Obj? && !Nullish(v) ==> r == Some(Undefined)
  {
    match v
    case Undefined => None
    case Null => None
    case Obj(fields) => Some(if key in fields then fields[key] else Undefined)
    case _ => Some(Undefined)
  }

  /** `v?.key`: undefined instead of a TypeError. */
  function GetOpt(v: Value, key: string): (r: Value)
    ensures Nullish(v) ==> r == Undefined
    ensures !Nullish(v) ==> Get(v, key) == Some(r)
  {
    if Nullish(v) then Undefined else Get(v, key).value
  }

  /** `a === b`. Objects and arrays compare by reference, which values here do
    * not carry, so they equal nothing. */
  function StrictEquals(a: Value, b: Value): (eq: bool)
    ensures eq ==> a == b
    ensures eq <==> a == b && !a.Arr? && !a.Obj?
  {
    match a
    case Arr(_) => false
    case Obj(_) => false
    case _ => a == b
  }

  /** `v.key = x` in strict-mode code. `None` is the TypeError thrown when `v`
    * is a primitive, null or undefined; a named field written on an array is
    * not kept by the model. */
  function SetField(v: Value, key: string, x: Value): (r: Option<Value>)
    ensures r.None? <==> !(v.Obj? || v.Arr?)
    ensures v.Obj? ==> r == Some(Obj(v.fields[key := x]))
  {
    match v
    case Obj(fields) => Some(Obj(fields[key := x]))
    case Arr(_) => Some(v)
    case _ => None
  }

  /** The strings of `parts` separated by `sep`, as `Array.prototype.join` puts them. */
  function Join(parts: seq<string>, sep: string): string
  {
    if |parts| == 0 then ""
    else if |parts| == 1 then parts[0]
    else Join(parts[..|parts| - 1], sep) + sep + parts[|parts| - 1]
  }

  /** `String(v)`: what `localStorage.setItem` stores and what an object key becomes. */
  function ToJsString(v: Value): (s: string)
    ensures v.Str? ==> s == v.s
    ensures v.Num? ==> s == IntToString(v.n)
    decreases v
  {
    match v
    case Undefined => "undefined"
    case Null => "null"
    case Bool(b) => if b then "true" else "false"
    case Num(n) => IntToString(n)
    case Str(s) => s
    case Arr(elems) =>
      Join(seq(|elems|, i requires 0 <= i < |elems| =>
        if Nullish(elems[i]) then "" else ToJsString(elems[i])), ",")
    case Obj(_) => "[object Object]"
  }
}
