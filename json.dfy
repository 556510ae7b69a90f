/**
 * JSON values as Python holds them after `json.loads`, and the Python
 * operations the build code applies to them: truthiness, `in`, `[]`,
 * `dict.get` and `+`.
 */
module Json {
  import opened Wrappers
  import Text

  /** A decoded JSON document (floating-point numbers are not modelled). */
  datatype Value =
    | Null
    | Bool(b: bool)
    | Int(i: int)
    | Str(s: string)
    | Arr(items: seq<Value>)
    | Obj(fields: map<string, Value>)

  /** Python's `bool(v)`. */
  predicate Truthy(v: Value) {
    match v
    case Null => false
    case Bool(b) => b
    case Int(i) => i != 0
    case Str(s) => s != ""
    case Arr(items) => |items| > 0
    case Obj(fields) => |fields| > 0
  }

  /** The keys the build code looks values up with: a string, or `None`. */
  predicate IsKey(k: Value) {
    k.Str? || k.Null?
  }

  /** How Python spells a key in a `KeyError`. */
  function KeyText(k: Value): string
    requires IsKey(k)
  {
    if k.Str? then k.s else "None"
  }

  /**
   * Python's `k in container`: a key test on a dict, an element test on a
   * list, a substring test on a str, and `TypeError` on anything else (or
   * for `None in str`).
   */
  function In(k: Value, container: Value): (r: Result<bool>)
    requires IsKey(k)
    ensures r.Ok? <==> container.Obj? || container.Arr? || (container.Str? && k.Str?)
    ensures r.Ok? && container.Obj? ==> (r.value <==> k.Str? && k.s in container.fields)
    ensures r.Ok? && container.Arr? ==> (r.value <==> k in container.items)
  {
    match container
    case Obj(fields) => Ok(k.Str? && k.s in fields)
    case Arr(items) => Ok(k in items)
    case Str(s) =>
      if k.Str? then Ok(Text.Contains(s, k.s))
      else Err(TypeError("'in <string>' requires string as left operand"))
    case _ => Err(TypeError("argument of type is not iterable"))
  }

  /**
   * Python's `container[k]`: only a dict holding the key answers; a missing
   * key is a `KeyError`, a list, str or scalar a `TypeError`.
   */
  function Subscript(container: Value, k: Value): (r: Result<Value>)
    requires IsKey(k)
    ensures r.Ok? <==> container.Obj? && k.Str? && k.s in container.fields
    ensures r.Ok? ==> r.value == container.fields[k.s]
    ensures r.Err? && container.Obj? ==> r.error == KeyError(KeyText(k))
  {
    match container
    case Obj(fields) =>
      if k.Str? && k.s in fields then Ok(fields[k.s]) else Err(KeyError(KeyText(k)))
    case Arr(_) => Err(TypeError("list indices must be integers or slices, not str"))
    case Str(_) => Err(TypeError("string indices must be integers"))
    case _ => Err(TypeError("object is not subscriptable"))
  }

  /** Python's `d.get(key, default)` on a JSON object. */
  function Get(fields: map<string, Value>, key: string, default: Value): (r: Value)
    ensures key in fields ==> r == fields[key]
    ensures key !in fields ==> r == default
  {
    if key in fields then fields[key] else default
  }

  /**
   * Python's `a + b` on decoded values: list concatenation, string
   * concatenation and integer addition; any other pairing is a `TypeError`.
   */
  function PyAdd(a: Value, b: Value): (r: Result<Value>)
    ensures r.Ok? <==> (a.Arr? && b.Arr?) || (a.Str? && b.Str?) || (a.Int? && b.Int?)
    ensures r.Ok? && a.Arr? ==> r.value == Arr(a.items + b.items)
    ensures r.Ok? && a.Str? ==> r.value == Str(a.s + b.s)
    ensures r.Ok? && a.Int? ==> r.value == Int(a.i + b.i)
  {
    if a.Arr? && b.Arr? then Ok(Arr(a.items + b.items))
    else if a.Str? && b.Str? then Ok(Str(a.s + b.s))
    else if a.Int? && b.Int? then Ok(Int(a.i + b.i))
    else Err(TypeError("unsupported operand type(s) for +"))
  }

  /** `Str(s)` for every string of a list, in order. */
  function Strs(ss: seq<string>): (r: seq<Value>)
    ensures |r| == |ss|
    ensures forall i :: 0 <= i < |ss| ==> r[i] == Str(ss[i])
  {
    if ss == [] then [] else [Str(ss[0])] + Strs(ss[1..])
  }

  /** A JSON list whose every item is a string. */
  predicate IsStrList(v: Value) {
    v.Arr? && forall i :: 0 <= i < |v.items| ==> v.items[i].Str?
  }

  /** The strings of a list of strings. */
  function StrItems(v: Value): (r: seq<string>)
    requires IsStrList(v)
    ensures Strs(r) == v.items
    decreases |v.items|
  {
    if v.items == [] then []
    else [v.items[0].s] + StrItems(Arr(v.items[1..]))
  }

  /** Python's `str(v)` for the scalar values the build code stringifies. */
  function PyStr(v: Value): (r: Result<string>)
    ensures v.Str? ==> r == Ok(v.s)
    ensures v.Int? ==> r == Ok(Text.IntToString(v.i))
    ensures r.Err? <==> v.Arr? || v.Obj?
    ensures r.Err? ==> r.error.Unsupported?
  {
    match v
    case Null => Ok("None")
    case Bool(b) => Ok(if b then "True" else "False")
    case Int(i) => Ok(Text.IntToString(i))
    case Str(s) => Ok(s)
    case Arr(_) => Err(Unsupported("str() of a list"))
    case Obj(_) => Err(Unsupported("str() of a mapping"))
  }

  /** Python's `int(v)`: `None` where it raises (`TypeError` or `ValueError`). */
  function IntOf(v: Value): Option<int> {
    match v
    case Int(i) => Some(i)
    case Bool(b) => Some(if b then 1 else 0)
    case Str(s) => Text.ParseInt(s)
    case _ => None
  }

  /** `int(str(n))` gives `n` back. */
  lemma IntOfStr(i: int)
    ensures IntOf(Str(Text.IntToString(i))) == Some(i)
  {
    Text.IntRoundTrip(i);
  }

  /** What `for x in v` visits: the items of a list or the characters of a string. */
  function Iter(v: Value): (r: Result<seq<Value>>)
    ensures v.Arr? ==> r == Ok(v.items)
    ensures v.Str? ==> r.Ok? && |r.value| == |v.s|
    ensures v.Null? || v.Bool? || v.Int? ==> r.Err? && r.error.TypeError?
  {
    match v
    case Arr(items) => Ok(items)
    case Str(s) => Ok(Strs(seq(|s|, i requires 0 <= i < |s| => [s[i]])))
    case Obj(_) => Err(Unsupported("iteration over a mapping"))
    case _ => Err(TypeError("object is not iterable"))
  }

  /** `sep.join(vs)`: a `TypeError` unless every item is a string. */
  function JoinStrs(vs: seq<Value>, sep: string): (r: Result<string>)
    ensures r.Ok? <==> IsStrList(Arr(vs))
    ensures r.Ok? ==> r.value == Text.Join(StrItems(Arr(vs)), sep)
  {
    if IsStrList(Arr(vs)) then Ok(Text.Join(StrItems(Arr(vs)), sep))
    else Err(TypeError("sequence item: expected str instance"))
  }

  /** `key in v`, followed when it holds by `v[key]`. */
  function Member(v: Value, key: string): (r: Result<Option<Value>>)
    ensures v.Obj? ==> r == Ok(if key in v.fields then Some(v.fields[key]) else None)
    ensures r.Ok? && r.value.Some? ==> v.Obj? && key in v.fields && r.value.value == v.fields[key]
    ensures r.Err? ==> r.error.TypeError? || r.error.KeyError?
  {
    var has :- In(Str(key), v);
    if !has then Ok(None)
    else
      var x :- Subscript(v, Str(key));
      Ok(Some(x))
  }
}
