/** Python-level values that the audio components receive as arguments, the
    exceptions they raise, and parsed JSON documents. */
module Py {

  datatype Option<T> = None | Some(value: T)

  /** The exceptions the modelled constructors and methods raise. */
  datatype Error =
    | ValueError
    | TypeError
    | ZeroDivisionError
    | AxisError               // numpy: an axis argument beyond the array's rank
    | OSError                 // includes failures to bind or connect
    | ConnectionRefusedError
    | InvalidURI              // websockets: a URI it cannot connect to
    | InvalidHandshake        // websockets: the server's opening handshake failed

  datatype Result<T> = Ok(value: T) | Err(error: Error)

  /** A constructor argument whose Python type is not fixed: a callback, a
      number, a string or None. Objects carry an identity and whether they are
      callable. */
  datatype Value =
    | NoneV
    | BoolV(b: bool)
    | IntV(i: int)
    | StrV(s: string)
    | ObjV(id: nat, isCallable: bool)

  /** Python's truth value of an argument. */
  predicate Truthy(v: Value)
  {
    match v
    case NoneV => false
    case BoolV(b) => b
    case IntV(i) => i != 0
    case StrV(s) => s != ""
    case ObjV(_, _) => true
  }

  /** Python's `callable(v)`. */
  predicate Callable(v: Value)
  {
    v.ObjV? && v.isCallable
  }

  /** A parsed JSON document (numbers restricted to integers). */
  datatype Json =
    | JNull
    | JBool(b: bool)
    | JNum(n: int)
    | JStr(s: string)
    | JArr(items: seq<Json>)
    | JObj(fields: map<string, Json>)

  /** `d.get(key)` on a JSON object, None standing for Python's None: a
      missing key and a key holding JSON null give the same None. */
  function Get(fields: map<string, Json>, key: string): (r: Option<Json>)
    ensures r.Some? <==> key in fields && fields[key] != JNull
    ensures r.Some? ==> r.value == fields[key]
  {
    if key in fields && fields[key] != JNull then Some(fields[key]) else None
  }
}
