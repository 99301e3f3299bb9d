/** Decoded JSON, as the weather service's responses reach the node server. */
module Json {
  import opened Wrappers
  import opened Text

  datatype Json =
    | Null
    | Num(n: real)
    | Str(s: string)
    | Arr(items: seq<Json>)
    | Obj(fields: map<string, Json>)

  /** `j[key]` on a decoded object: None where Python raises (KeyError, or TypeError on a non-object). */
  function Member(j: Json, key: string): (r: Option<Json>)
    ensures r.Some? <==> j.Obj? && key in j.fields
    ensures r.Some? ==> r.value == j.fields[key]
  {
    if j.Obj? && key in j.fields then Some(j.fields[key]) else None
  }

  /** `j[i]` for a non-negative index: None where Python raises IndexError or TypeError. */
  function Element(j: Json, i: nat): (r: Option<Json>)
    ensures r.Some? <==> j.Arr? && i < |j.items|
    ensures r.Some? ==> r.value == j.items[i]
  {
    if j.Arr? && i < |j.items| then Some(j.items[i]) else None
  }

  /**
   * Python `float(v)` on a decoded JSON value: a number converts to itself and a string is
   * parsed, raising ValueError where it does not read as a number; `None`, lists and dicts
   * raise TypeError.
   */
  function Float(j: Json): (r: Result<real>)
    ensures r.Ok? <==> j.Num? || (j.Str? && ParseFloat(j.s).Some?)
    ensures r.Ok? && j.Num? ==> r.value == j.n
    ensures r.Ok? && j.Str? ==> r.value == ParseFloat(j.s).value
    ensures r.Raise? ==> r.error == if j.Str? then ValueError else TypeError
  {
    match j
    case Num(n) => Ok(n)
    case Str(s) => if ParseFloat(s).Some? then Ok(ParseFloat(s).value) else Raise(ValueError)
    case _ => Raise(TypeError)
  }

  /**
   * `j[key]` with a string key, as Python raises: a dict without the key raises KeyError; a
   * list, a string, a number or `None` cannot be indexed by a string and raises TypeError.
   */
  function Lookup(j: Json, key: string): (r: Result<Json>)
    ensures r.Ok? <==> Member(j, key).Some?
    ensures r.Ok? ==> r.value == j.fields[key]
    ensures r.Raise? ==> r.error == (if j.Obj? then KeyError else TypeError)
  {
    if !j.Obj? then Raise(TypeError)
    else if key in j.fields then Ok(j.fields[key])
    else Raise(KeyError)
  }

  /**
   * `j[i]` with an integer index: a list gives its element or raises IndexError, a string its
   * one-character substring or IndexError; a dict decoded from JSON has only string keys, so it
   * raises KeyError; a number or `None` raises TypeError.
   */
  function Index(j: Json, i: nat): (r: Result<Json>)
    ensures j.Arr? ==> (r.Ok? <==> i < |j.items|)
    ensures r.Ok? && j.Arr? ==> r.value == j.items[i]
    ensures j.Str? ==> r == (if i < |j.s| then Ok(Str([j.s[i]])) else Raise(IndexError))
    ensures j.Obj? ==> r == Raise(KeyError)
    ensures (j.Num? || j.Null?) ==> r == Raise(TypeError)
  {
    match j
    case Arr(items) => if i < |items| then Ok(items[i]) else Raise(IndexError)
    case Str(s) => if i < |s| then Ok(Str([s[i]])) else Raise(IndexError)
    case Obj(_) => Raise(KeyError)
    case _ => Raise(TypeError)
  }
}
