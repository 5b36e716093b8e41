/**
 * The few pieces of Python behaviour the backend helpers depend on:
 * exceptions and their `str()`, dict item assignment, the text an
 * f-string field produces, and iterating over a decoded JSON value.
 */
module Python {
  import opened Common
  import opened Text
  import opened Json

  /** A raised exception; `message` is what `str(e)` gives. */
  datatype PyError =
    | ValueError(message: string)
    | AttributeError(message: string)
    | TypeError(message: string)
    | Exception(message: string)

  /** The outcome of a Python call: a returned value or a raised exception. */
  datatype Result<T> = Returns(value: T) | Raises(error: PyError)

  /** What a model or SDK call followed by `json.loads` produced: a value, or the message of what it raised. */
  datatype Reply = Decoded(value: Value) | Failed(message: string)

  /** `raise Exception(f"{prefix}{str(e)}")` inside `except Exception as e`. */
  function Rewrap(prefix: string, e: PyError): (r: PyError)
    ensures r.Exception? && StartsWith(r.message, prefix)
    ensures r.message[|prefix|..] == e.message
  {
    Exception(prefix + e.message)
  }

  // ---------------------------------------------------------------------
  // Dicts

  /** A Python dict as an ordered list of its items. */
  type Dict = seq<(string, Value)>

  /** The keys of a dict, in order. */
  function Keys(d: Dict): (r: seq<string>)
    ensures |r| == |d| && forall k :: 0 <= k < |d| ==> r[k] == d[k].0
  {
    if d == [] then [] else [d[0].0] + Keys(d[1..])
  }

  /** No key is bound twice (every dict Python builds). */
  predicate DistinctKeys(d: Dict) {
    forall i, j :: 0 <= i < j < |d| ==> d[i].0 != d[j].0
  }

  /** `d[key] = v`: a present key keeps its place and takes the new value; a new key goes at the end. */
  function SetItem(d: Dict, key: string, v: Value): (r: Dict)
    ensures key in Keys(d) ==> |r| == |d| && forall k :: 0 <= k < |d| ==> r[k] == (if d[k].0 == key then (key, v) else d[k])
    ensures key !in Keys(d) ==> r == d + [(key, v)]
  {
    if key in Keys(d) then seq(|d|, k requires 0 <= k < |d| => if d[k].0 == key then (key, v) else d[k])
    else d + [(key, v)]
  }

  /** In a dict without repeated keys, looking up the key at position `k` finds the value there. */
  lemma LookupDistinct(d: Dict, k: nat)
    requires DistinctKeys(d) && k < |d|
    ensures Lookup(d, d[k].0) == Some(d[k].1)
  {
    var key := d[k].0;
    assert d[k].0 == key;
    var r := Lookup(d, key);
    var j :| 0 <= j < |d| && d[j] == (key, r.value) && forall j' :: j < j' < |d| ==> d[j'].0 != key;
    assert j == k;
  }

  // ---------------------------------------------------------------------
  // f-string fields

  /**
   * The text an f-string field gives, as far as this model states it:
   * `Raised` when computing the field raises, `Unstated` when the field
   * is the `str()` of a value whose text this model does not spell out
   * (a non-integral float, a list or a dict).
   */
  datatype Rendering = Rendered(text: string) | Raised | Unstated {
    /** Evaluating `this` and then `next` left to right and concatenating: an exception stops the evaluation. */
    function Then(next: Rendering): (r: Rendering)
      ensures r.Rendered? <==> this.Rendered? && next.Rendered?
      ensures r.Rendered? ==> r.text == this.text + next.text
      ensures r.Raised? <==> this.Raised? || (!this.Raised? && next.Raised?)
    {
      if this.Raised? then Raised
      else if next.Raised? then Raised
      else if this.Unstated? || next.Unstated? then Unstated
      else Rendered(this.text + next.text)
    }
  }

  /** Literal text in an f-string. */
  function Lit(s: string): Rendering {
    Rendered(s)
  }

  /** `str(v)` for a decoded JSON value; it never raises. */
  function PyStr(v: Value): (r: Rendering)
    ensures !r.Raised?
    ensures v.Str? ==> r == Rendered(v.s)
    ensures v.Int? ==> r == Rendered(IntString(v.i))
  {
    match v
    case Null => Rendered("None")
    case Bool(b) => Rendered(if b then "True" else "False")
    case Int(i) => Rendered(IntString(i))
    case Str(s) => Rendered(s)
    case Float(f) =>
      if f == f.Floor as real && -10_000_000_000_000_000 < f.Floor < 10_000_000_000_000_000
      then Rendered(IntString(f.Floor) + ".0")
      else Unstated
    case Arr(_) => Unstated
    case Obj(_) => Unstated
  }

  /** `sep.join(parts)` over field renderings, evaluated left to right. */
  function JoinRendered(parts: seq<Rendering>, sep: string): (r: Rendering)
    ensures r.Rendered? <==> forall k :: 0 <= k < |parts| ==> parts[k].Rendered?
    ensures r.Raised? <==> exists k :: 0 <= k < |parts| && parts[k].Raised?
    ensures r.Rendered? ==> r.text == Join(Texts(parts), sep)
  {
    if |parts| == 0 then Rendered("")
    else if |parts| == 1 then parts[0]
    else parts[0].Then(Lit(sep)).Then(JoinRendered(parts[1..], sep))
  }

  /** The texts of renderings that all succeeded. */
  function Texts(parts: seq<Rendering>): (r: seq<string>)
    requires forall k :: 0 <= k < |parts| ==> parts[k].Rendered?
    ensures |r| == |parts| && forall k :: 0 <= k < |parts| ==> r[k] == parts[k].text
  {
    if parts == [] then [] else [parts[0].text] + Texts(parts[1..])
  }

  // ---------------------------------------------------------------------
  // Iteration

  /**
   * The items `for x in v` visits: a list's elements, a string's
   * characters (as one-character strings), a dict's keys; `None` when the
   * value is not iterable (Python raises TypeError).
   */
  function Iterate(v: Value): (r: Option<seq<Value>>)
    ensures v.Arr? ==> r == Some(v.items)
    ensures r.None? <==> v.Null? || v.Bool? || v.Int? || v.Float?
  {
    match v
    case Arr(items) => Some(items)
    case Str(s) => Some(seq(|s|, k requires 0 <= k < |s| => Str([s[k]])))
    case Obj(members) => Some(seq(|members|, k requires 0 <= k < |members| => Str(members[k].0)))
    case _ => None
  }

  /** `x in v` for the membership test of a one-value `x`: substring on a string, element on a list, key on a dict; TypeError otherwise. */
  function In(x: string, v: Value): (r: Result<bool>)
    ensures v.Str? ==> r == Returns(Contains(v.s, x))
    ensures r.Raises? <==> v.Null? || v.Bool? || v.Int? || v.Float?
  {
    match v
    case Str(s) => Returns(Contains(s, x))
    case Arr(items) => Returns(Str(x) in items)
    case Obj(members) => Returns(x in Keys(members))
    case _ => Raises(TypeError("argument of type '" + PyTypeName(v) + "' is not iterable"))
  }
}
