/** The JavaScript values that the helpers read and produce, and the few
    operators of the language they use on them: truthiness, `||`, property
    access, object spread and array spread. */
module Js {

  datatype Option<+T> = None | Some(value: T)

  /** A call that returns a value or throws an error. */
  datatype Result<+T, +E> = Success(value: T) | Failure(error: E)

  /** A JSON-like JavaScript value. Numbers are integers; objects are maps
      from key to value (their key order is not modelled). */
  datatype Value =
    | Undefined
    | Null
    | Bool(b: bool)
    | Num(n: int)
    | Str(s: string)
    | Arr(items: seq<Value>)
    | Obj(fields: map<string, Value>)

  /** JavaScript truthiness: undefined, null, false, 0 and '' are falsy. */
  predicate Truthy(v: Value)
  {
    match v
    case Undefined => false
    case Null => false
    case Bool(b) => b
    case Num(n) => n != 0
    case Str(s) => s != ""
    case Arr(_) => true
    case Obj(_) => true
  }

  /** The value a destructured or read property has: `undefined` when the
      key is absent. */
  function ValueOf(o: Option<Value>): Value
  {
    match o
    case None => Undefined
    case Some(v) => v
  }

  /** Key `k` of a property bag after `{ ...base, ...over }`. */
  function Override(base: Option<Value>, over: Option<Value>): (r: Option<Value>)
    ensures over.Some? ==> r == over
    ensures over.None? ==> r == base
  {
    if over.Some? then over else base
  }

  /** `a || b` */
  function Or(a: Value, b: Value): Value
  {
    if Truthy(a) then a else b
  }

  /** Property access `v.key`: `undefined` when `v` is not an object or has
      no such key. */
  function Get(v: Value, key: string): Value
  {
    if v.Obj? && key in v.fields then v.fields[key] else Undefined
  }

  /** The keys `{ ...v }` contributes to an object literal: an object's own
      keys, nothing for a falsy value or a boolean or number. */
  function Spread(v: Value): map<string, Value>
  {
    if v.Obj? then v.fields else map[]
  }

  /** `...x && { [key]: x }` inside an object literal. */
  function SpreadIfTruthy(key: string, x: Value): (r: map<string, Value>)
    ensures forall k :: k in r ==> k == key
    ensures key in r <==> Truthy(x)
    ensures key in r ==> r[key] == x
  {
    if Truthy(x) then map[key := x] else map[]
  }

  /** A key that is there only when it has a value. */
  function OptionalEntry(key: string, x: Option<Value>): (r: map<string, Value>)
    ensures forall k :: k in r ==> k == key
    ensures key in r <==> x.Some?
    ensures key in r ==> r[key] == x.value
  {
    if x.Some? then map[key := x.value] else map[]
  }

  /** `...(v || [])` inside an array literal, for an array or a falsy value. */
  function SpreadItems(v: Value): seq<Value>
  {
    if v.Arr? then v.items else []
  }

  /** Two texts with a common prefix differ when their suffixes differ. */
  lemma SuffixesDiffer(p: string, a: string, b: string)
    requires a != b
    ensures p + a != p + b
  {
    assert (p + a)[|p|..] == a;
    assert (p + b)[|p|..] == b;
  }

  /** Decimal digits of a natural number. */
  function NatToString(n: nat): (r: string)
    ensures |r| >= 1
    decreases n
  {
    var d := ['0', '1', '2', '3', '4', '5', '6', '7', '8', '9'];
    if n < 10 then [d[n]] else NatToString(n / 10) + [d[n % 10]]
  }

  /** The text `${v}` interpolates for a primitive value; an object gives
      '[object Object]'. */
  function Display(v: Value): string
  {
    match v
    case Undefined => "undefined"
    case Null => "null"
    case Bool(b) => if b then "true" else "false"
    case Num(n) => if n < 0 then "-" + NatToString(-n) else NatToString(n)
    case Str(s) => s
    case Arr(items) => DisplayItems(items)
    case Obj(_) => "[object Object]"
  }

  /** `Array.prototype.join(',')`, which shows null and undefined as ''. */
  function DisplayItems(items: seq<Value>): string
    decreases items
  {
    if items == [] then ""
    else
      var head := if items[0].Undefined? || items[0].Null? then "" else Display(items[0]);
      if |items| == 1 then head else head + "," + DisplayItems(items[1..])
  }
}

/** The helpers' common output: a tagged hook for the templating tool. */
module Hooks {
  import opened Js

  datatype HookKind = ResourceHook | FunctionHook | IamStatementHook | EnvVarsHook

  /** The tuple `[kind, payload]`, e.g. `['resource', { name, resource }]`. */
  datatype Hook = Hook(kind: HookKind, payload: Value)

  /** The placeholder the templating tool replaces with the service name. */
  const ServiceNameRef := "${self:custom.serviceName}"
}

/** The string case conversions of the repository's `utils/string` module.
    Their implementation is foreign to this model: they are parameters. */
module StringCase {

  datatype CaseConversions = CaseConversions(
    upperCamelCase: string -> string,
    kebabCase: string -> string,
    upperSnakeCase: string -> string)
}
