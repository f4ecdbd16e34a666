/** The Python values that travel through the core: what `json.load` and
    `response.json()` produce, plus the few Python operations that the core
    applies to them. Each operation that can raise in Python (`d[k]` on a missing
    key, `.get` on something that is not a dict, iterating an int, ...) returns
    `None` in exactly the cases where Python raises. */
module Json {
  import opened Wrappers
  import opened Dicts
  import opened Strings

  /** A decoded JSON value. Objects keep their keys' insertion order. */
  datatype Json =
    | Null
    | Bool(b: bool)
    | Int(n: int)
    | Str(s: string)
    | Arr(items: seq<Json>)
    | Obj(fields: Dict<string, Json>)

  /** Python's `None`-or-string, as a value. */
  function OptStr(o: Option<string>): Json
  {
    match o
    case None => Null
    case Some(s) => Str(s)
  }

  /** Python truth value (`bool(x)`): `None`, `False`, `0`, `""`, `[]` and `{}` are false. */
  predicate Truthy(j: Json)
  {
    match j
    case Null => false
    case Bool(b) => b
    case Int(n) => n != 0
    case Str(s) => s != ""
    case Arr(xs) => xs != []
    case Obj(fs) => fs != []
  }

  /** Truth value of an optional string argument (`if token:`). */
  predicate Given(o: Option<string>)
  {
    o.Some? && o.value != ""
  }

  /** Lists and dicts cannot be dict keys or set members (`TypeError: unhashable type`). */
  predicate Hashable(j: Json)
  {
    !j.Arr? && !j.Obj?
  }

  /** `j.get(key, default)`: only a dict has `.get` (otherwise `AttributeError`). */
  function GetOr(j: Json, key: string, default: Json): (r: Option<Json>)
    ensures r.Some? <==> j.Obj?
    ensures j.Obj? && key in Keys(j.fields) ==> r == Get(j.fields, key)
    ensures j.Obj? && key !in Keys(j.fields) ==> r == Some(default)
  {
    if j.Obj? then Some(Get(j.fields, key).GetOr(default)) else None
  }

  /** `j[key]` with a string key: `KeyError` on a dict without it, `TypeError` on anything else. */
  function At(j: Json, key: string): (r: Option<Json>)
    ensures r.Some? <==> j.Obj? && key in Keys(j.fields)
    ensures r.Some? ==> r == Get(j.fields, key)
  {
    if j.Obj? then Get(j.fields, key) else None
  }

  /** `for x in j`: a list yields its items, a dict its keys, a string its characters;
      anything else is not iterable. */
  function Iter(j: Json): (r: Option<seq<Json>>)
    ensures r.Some? <==> j.Arr? || j.Obj? || j.Str?
    ensures j.Arr? ==> r == Some(j.items)
  {
    match j
    case Arr(xs) => Some(xs)
    case Obj(fs) => Some(seq(|fs|, i requires 0 <= i < |fs| => Str(fs[i].0)))
    case Str(s) => Some(seq(|s|, i requires 0 <= i < |s| => Str([s[i]])))
    case _ => None
  }

  /** `len(j)`: defined exactly where iteration is, and counts what iteration yields. */
  function Len(j: Json): (r: Option<nat>)
    ensures r.Some? <==> Iter(j).Some?
    ensures r.Some? ==> r.value == |Iter(j).value|
  {
    match j
    case Arr(xs) => Some(|xs|)
    case Obj(fs) => Some(|fs|)
    case Str(s) => Some(|s|)
    case _ => None
  }

  /** `j[0]` on a value that the caller has found truthy: the first item of a list,
      the first character of a string; a dict has no key `0` (`KeyError`), and
      numbers and booleans cannot be subscripted. */
  function First(j: Json): (r: Option<Json>)
    ensures j.Arr? && j.items != [] ==> r == Some(j.items[0])
    ensures r.Some? ==> (j.Arr? && j.items != []) || (j.Str? && j.s != [])
  {
    match j
    case Arr(xs) => if xs != [] then Some(xs[0]) else None
    case Str(s) => if s != [] then Some(Str([s[0]])) else None
    case _ => None
  }

  /** `a + b` as far as it is later iterated: two lists concatenate, two strings
      concatenate; any other pair either raises or yields a number, which cannot be
      iterated, so it counts as a failure here. */
  function Concat(a: Json, b: Json): (r: Option<Json>)
    ensures a.Arr? && b.Arr? ==> r == Some(Arr(a.items + b.items))
  {
    if a.Arr? && b.Arr? then Some(Arr(a.items + b.items))
    else if a.Str? && b.Str? then Some(Str(a.s + b.s))
    else None
  }

  /** `repr(j)`, with string quoting simplified to single quotes and no escapes. */
  function Repr(j: Json): string
  {
    match j
    case Null => "None"
    case Bool(b) => if b then "True" else "False"
    case Int(n) => Decimal(n)
    case Str(s) => "'" + s + "'"
    case Arr(xs) => "[" + Join(", ", seq(|xs|, i requires 0 <= i < |xs| => Repr(xs[i]))) + "]"
    case Obj(fs) => "{" + Join(", ", seq(|fs|, i requires 0 <= i < |fs| => "'" + fs[i].0 + "': " + Repr(fs[i].1))) + "}"
  }

  /** `str(j)` (what an f-string shows): a string shows itself, anything else its repr. */
  function Display(j: Json): string
  {
    if j.Str? then j.s else Repr(j)
  }
}
