/**
 * Decoded JSON values, as `response.json()` in the browser and `json.loads`
 * in Python produce them, with the two languages' notions of truthiness and
 * Python's `dict.get`.
 */
module Json {
  import opened Common

  /**
   * A decoded JSON value. An object keeps its members in document order
   * (as a Python dict built by `json.loads` and a JavaScript object with
   * string keys both do).
   */
  datatype Value =
    | Null
    | Bool(b: bool)
    | Int(i: int)
    | Float(f: real)
    | Str(s: string)
    | Arr(items: seq<Value>)
    | Obj(members: seq<(string, Value)>)

  /**
   * The value bound to `key` in an object's members, if any. When the text
   * repeats a key, the last binding wins, as in both `json.loads` and `JSON.parse`.
   */
  function Lookup(members: seq<(string, Value)>, key: string): (r: Option<Value>)
    ensures r.None? <==> forall k :: 0 <= k < |members| ==> members[k].0 != key
    ensures r.Some? ==> exists k :: 0 <= k < |members| && members[k] == (key, r.value)
                                 && forall k' :: k < k' < |members| ==> members[k'].0 != key
  {
    if members == [] then None
    else if members[|members| - 1].0 == key then Some(members[|members| - 1].1)
    else Lookup(members[..|members| - 1], key)
  }

  /** Python `d.get(key, default)` on a dict. */
  function Get(members: seq<(string, Value)>, key: string, default: Value): Value {
    Lookup(members, key).GetOr(default)
  }

  /** Python truthiness (`if x:`): `None`, `False`, zero, `""`, `[]` and `{}` are false. */
  predicate PyTruthy(v: Value) {
    match v
    case Null => false
    case Bool(b) => b
    case Int(i) => i != 0
    case Float(f) => f != 0.0
    case Str(s) => s != ""
    case Arr(items) => items != []
    case Obj(members) => members != []
  }

  /** JavaScript truthiness: `null`, `false`, `0` and `""` are false (a decoded value is never `NaN`); every array and object is true. */
  predicate JsTruthy(v: Value) {
    match v
    case Null => false
    case Bool(b) => b
    case Int(i) => i != 0
    case Float(f) => f != 0.0
    case Str(s) => s != ""
    case Arr(_) => true
    case Obj(_) => true
  }

  /** The two notions agree except on empty arrays and objects, which only Python treats as false. */
  lemma TruthinessDiffers(v: Value)
    ensures PyTruthy(v) ==> JsTruthy(v)
    ensures JsTruthy(v) && !PyTruthy(v) <==> v == Arr([]) || v == Obj([])
  {
  }

  /** The name Python reports for the type of a decoded value (`type(v).__name__`). */
  function PyTypeName(v: Value): string {
    match v
    case Null => "NoneType"
    case Bool(_) => "bool"
    case Int(_) => "int"
    case Float(_) => "float"
    case Str(_) => "str"
    case Arr(_) => "list"
    case Obj(_) => "dict"
  }

  /** The message of the AttributeError raised by calling `.get` on a decoded value that is not a dict. */
  function NoGetMessage(v: Value): string
    requires !v.Obj?
  {
    "'" + PyTypeName(v) + "' object has no attribute 'get'"
  }
}
