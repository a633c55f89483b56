/** The JavaScript values that travel through the buses and the step handlers,
    as an immutable tree: what `JSON.parse` yields, plus functions and symbols,
    which pass through substitution untouched. Numbers are integers. */
module Json {
  import opened Wrappers
  import Numerals

  datatype Json =
    | Undefined
    | Null
    | Bool(b: bool)
    | Num(n: int)
    | Str(s: string)
    | Arr(items: seq<Json>)
    | Obj(fields: seq<(string, Json)>)  // keys are taken to be distinct, as in a parsed object
    | Fn(id: nat)
    | Sym(id: nat)

  /** Reading a property of `undefined` or `null` throws a TypeError. */
  datatype TypeError = TypeError

  /** JavaScript truthiness: `undefined`, `null`, `false`, `0` and `""` are falsy. */
  predicate Truthy(v: Json) {
    match v
    case Undefined => false
    case Null => false
    case Bool(b) => b
    case Num(n) => n != 0
    case Str(s) => s != ""
    case _ => true
  }

  /** The value stored under `key` in an object's own properties, `undefined` when absent. */
  function Lookup(fields: seq<(string, Json)>, key: string): (r: Json)
    ensures r != Undefined ==> exists i :: 0 <= i < |fields| && fields[i] == (key, r)
    ensures (forall i :: 0 <= i < |fields| ==> fields[i].0 != key) ==> r == Undefined
    ensures forall i :: 0 <= i < |fields| && fields[i].0 == key && (forall j :: 0 <= j < i ==> fields[j].0 != key) ==> r == fields[i].1
  {
    if |fields| == 0 then Undefined
    else if fields[0].0 == key then fields[0].1
    else Lookup(fields[1..], key)
  }

  /** `v[key]`: throws on `undefined` and `null`; the built-in properties of other
      values (such as `length`) are not modelled and read as `undefined`. */
  function Field(v: Json, key: string): (r: Result<Json, TypeError>)
    ensures r.Err? <==> v == Undefined || v == Null
    ensures v.Obj? ==> r == Ok(Lookup(v.fields, key))
  {
    match v
    case Undefined => Err(TypeError)
    case Null => Err(TypeError)
    case Obj(fields) => Ok(Lookup(fields, key))
    case _ => Ok(Undefined)
  }

  /** `v[i]` for a numeric index: an array element, a one-character string, or an
      object property named by the decimal text of `i`. */
  function Index(v: Json, i: nat): (r: Result<Json, TypeError>)
    ensures r.Err? <==> v == Undefined || v == Null
    ensures v.Arr? && i < |v.items| ==> r == Ok(v.items[i])
  {
    match v
    case Undefined => Err(TypeError)
    case Null => Err(TypeError)
    case Arr(items) => Ok(if i < |items| then items[i] else Undefined)
    case Str(s) => Ok(if i < |s| then Str([s[i]]) else Undefined)
    case Obj(fields) => Ok(Lookup(fields, Numerals.ShowNat(i)))
    case _ => Ok(Undefined)
  }

  /** `"" + v`, the string concatenation conversion, for the values it is applied to
      here; an array prints its elements joined by commas. */
  function ToText(v: Json): string {
    match v
    case Undefined => "undefined"
    case Null => "null"
    case Bool(b) => if b then "true" else "false"
    case Num(n) => Numerals.ShowInt(n)
    case Str(s) => s
    case Arr(items) => JoinText(items)
    case Obj(_) => "[object Object]"
    case Fn(_) => "function"
    case Sym(_) => "Symbol()"
  }

  /** `Array.prototype.join(",")`: `undefined` and `null` elements print as empty. */
  function JoinText(items: seq<Json>): string
    decreases items
  {
    if |items| == 0 then ""
    else
      var head := if items[0] == Undefined || items[0] == Null then "" else ToText(items[0]);
      if |items| == 1 then head else head + "," + JoinText(items[1..])
  }
}
