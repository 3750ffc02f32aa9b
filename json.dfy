/**
 * Decoded JSON payloads and the Python operations the service applies to them:
 * subscripting with a string or with 0, `dict.get`, `len` and truthiness.
 * Every operation Python would reject with KeyError, IndexError, TypeError or
 * AttributeError gives Err(Malformed).
 */
module Json {
  import opened Wrappers
  import opened Failures

  datatype Json =
    | Null
    | Bool(b: bool)
    | Num(n: int)
    | Str(s: string)
    | Arr(items: seq<Json>)
    | Obj(fields: map<string, Json>)

  /** Python's `bool(j)`: None, False, 0 and empty strings, lists and dicts are false. */
  predicate Truthy(j: Json) {
    match j
    case Null => false
    case Bool(b) => b
    case Num(n) => n != 0
    case Str(s) => s != ""
    case Arr(items) => items != []
    case Obj(fields) => fields != map[]
  }

  /** Python's `j[name]`: only a dict holding `name` answers. */
  function Member(j: Json, name: string): (r: Result<Json, Failure>)
    ensures r.Ok? <==> j.Obj? && name in j.fields
    ensures r.Ok? ==> r.value == j.fields[name]
    ensures r.Err? ==> r.error == Malformed
  {
    if j.Obj? && name in j.fields then Ok(j.fields[name]) else Err(Malformed)
  }

  /** Python's `j[0]`: the first item of a list, or the first character of a string. */
  function First(j: Json): (r: Result<Json, Failure>)
    ensures r.Ok? <==> (j.Arr? && j.items != []) || (j.Str? && j.s != "")
    ensures r.Ok? && j.Arr? ==> r.value == j.items[0]
    ensures r.Ok? && j.Str? ==> r.value == Str([j.s[0]])
    ensures r.Err? ==> r.error == Malformed
  {
    match j
    case Arr(items) => if items != [] then Ok(items[0]) else Err(Malformed)
    case Str(s) => if s != "" then Ok(Str([s[0]])) else Err(Malformed)
    case _ => Err(Malformed)
  }

  /** Python's `j.get(name)`: only dicts have `get`; a missing key reads as None. */
  function Get(j: Json, name: string): (r: Result<Json, Failure>)
    ensures r.Ok? <==> j.Obj?
    ensures r.Ok? && name in j.fields ==> r.value == j.fields[name]
    ensures r.Ok? && name !in j.fields ==> r.value == Null
    ensures r.Err? ==> r.error == Malformed
  {
    match j
    case Obj(fields) => Ok(if name in fields then fields[name] else Null)
    case _ => Err(Malformed)
  }

  /** Python's `len(j)` for strings, lists and dicts. */
  function Length(j: Json): (r: Result<nat, Failure>)
    ensures r.Ok? <==> j.Str? || j.Arr? || j.Obj?
    ensures r.Ok? ==> (r.value == 0 <==> !Truthy(j))
    ensures r.Err? ==> r.error == Malformed
  {
    match j
    case Str(s) => Ok(|s|)
    case Arr(items) => Ok(|items|)
    case Obj(fields) => Ok(|fields|)
    case _ => Err(Malformed)
  }
}
