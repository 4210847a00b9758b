/** Decoded JSON values as the request handlers see them once FastAPI has
    parsed a body, together with the Option and Result wrappers the model
    uses for absent values and for raised exceptions. */
module Json {

  datatype Option<T> = None | Some(value: T)

  datatype Result<T, E> = Ok(value: T) | Err(error: E)

  /** A JSON value. Numbers are integers only. */
  datatype Value =
    | Null
    | Bool(b: bool)
    | Num(n: int)
    | Str(s: string)
    | Arr(items: seq<Value>)
    | Obj(fields: map<string, Value>)

  /** Python's truthiness of a decoded JSON value (`if x:` / `not x`).
      Exactly the empty values of each kind are falsy: None, False, 0, the
      empty string, the empty list and the empty dict. */
  predicate Truthy(v: Value)
    ensures !Truthy(v) <==> v in {Null, Bool(false), Num(0), Str(""), Arr([]), Obj(map[])}
  {
    match v
    case Null => false
    case Bool(b) => b
    case Num(n) => n != 0
    case Str(s) => s != ""
    case Arr(items) => items != []
    case Obj(fields) => fields != map[]
  }
}
