/** Decoded JSON documents, as `response.json()` hands them to the program,
    and the two Python errors that subscripting and iterating them can raise. */
module Json {
  import opened Wrappers

  /** A decoded JSON value. Numbers are integers: every number the program
      reads is a customer count. */
  datatype Value =
    | Null
    | Bool(b: bool)
    | Number(n: int)
    | Str(s: string)
    | Array(items: seq<Value>)
    | Object(fields: map<string, Value>)

  /** `KeyError(key)` for a missing dictionary key; `TypeError` for
      subscripting, iterating or concatenating a value of the wrong kind. */
  datatype PyError = KeyError(key: string) | TypeError

  /** Python's `v[key]` on a decoded value: only a dictionary can be
      subscripted with a string. */
  function Get(v: Value, key: string): Result<Value, PyError>
  {
    match v
    case Object(fields) => if key in fields then Ok(fields[key]) else Err(KeyError(key))
    case _ => Err(TypeError)
  }

  /** The elements Python's `for x in v` visits. A list yields its items and
      a string its one-character strings. A dictionary yields its keys, which
      are strings; the only use of an element here is `x['desc']`, which
      raises `TypeError` on a string, so a non-empty dictionary is reported
      as that error directly and an empty one as no elements. Anything else
      is not iterable. */
  function Elements(v: Value): (r: Result<seq<Value>, PyError>)
    ensures v.Array? ==> r == Ok(v.items)
    ensures v.Str? ==> r.Ok? && |r.value| == |v.s| && forall i :: 0 <= i < |v.s| ==> r.value[i] == Str([v.s[i]])
    ensures v.Object? ==> (r.Ok? <==> |v.fields| == 0)
    ensures v.Object? && |v.fields| == 0 ==> r == Ok([])
    ensures r.Ok? ==> v.Array? || v.Str? || v.Object?
    ensures r.Err? ==> r.error == TypeError
  {
    match v
    case Array(items) => Ok(items)
    case Str(s) => Ok(seq(|s|, i requires 0 <= i < |s| => Str([s[i]])))
    case Object(fields) => if |fields| == 0 then Ok([]) else Err(TypeError)
    case _ => Err(TypeError)
  }
}
