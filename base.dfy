/** Values shared by every module of the model: optional and fallible results,
    bytes, the exceptions the modelled code raises, and string prefixes. */
module Base {

  /** `None` stands for Python's `None` (an unset environment variable, a
      missing dictionary entry). */
  datatype Option<+T> = None | Some(value: T) {
    /** `os.environ.get(name, default)` and `dict.get(key, default)`. */
    function GetOr(default: T): (r: T)
      ensures Some? ==> r == value
      ensures None? ==> r == default
    {
      if Some? then value else default
    }
  }

  /** The value a Python call returns, or the exception it raises. */
  datatype Result<+T, +E> = Success(value: T) | Failure(error: E)

  /** A Python call whose return value is not used: it returns or it raises. */
  datatype Outcome<+E> = Pass | Fail(error: E)

  newtype byte = x: int | 0 <= x < 256
  type Bytes = seq<byte>

  /** The exceptions that flow through the modelled code. */
  datatype Error =
    | ValueError(message: string)      // raised by a handler's own validation
    | AttributeError(message: string)  // a method looked up on a value of the wrong type
    | HttpError(status: int)           // `raise_for_status` on a 4xx or 5xx response
    | ImageError                       // PIL could not identify the image
    | Foreign(message: string)         // raised inside a collaborator (network, storage, ...)

  /** Python's `s.startswith(prefix)`. */
  predicate StartsWith(s: string, prefix: string)
  {
    |prefix| <= |s| && s[..|prefix|] == prefix
  }

  lemma {:induction false} StartsWithConcat(prefix: string, rest: string)
    ensures StartsWith(prefix + rest, prefix)
    ensures (prefix + rest)[|prefix|..] == rest
  {
    assert (prefix + rest)[..|prefix|] == prefix;
  }
}

/** Decoded JSON payloads, as `json.loads` hands them to a handler. */
module Json {
  import opened Base

  datatype Json =
    | Null
    | Bool(b: bool)
    | Num(n: real)
    | Str(s: string)
    | Arr(items: seq<Json>)
    | Obj(fields: map<string, Json>)

  /** Python truthiness, as tested by `if not value`. */
  predicate Truthy(j: Json)
    ensures !Truthy(j) <==> j in {Null, Bool(false), Num(0.0), Str(""), Arr([]), Obj(map[])}
  {
    match j
    case Null => false
    case Bool(b) => b
    case Num(n) => n != 0.0
    case Str(s) => s != ""
    case Arr(items) => items != []
    case Obj(fields) => fields != map[]
  }

  /** `data.get(key)` on a dictionary: `None` when the key is absent. */
  function Get(fields: map<string, Json>, key: string): (r: Option<Json>)
    ensures r.Some? <==> key in fields
    ensures r.Some? ==> r.value == fields[key]
  {
    if key in fields then Some(fields[key]) else None
  }
}
