/**
 * Values as they are stored in MongoDB documents and exchanged as JSON.
 * Datetimes are whole seconds since the epoch (`Time`); Python's `None`
 * and JSON's `null` are both `Null`.
 */
module Values {
  import opened Wrappers

  datatype Value =
    | Null
    | Str(s: string)
    | Int(i: int)
    | Real(r: real)
    | Bool(b: bool)
    | Time(t: int)
    | List(items: seq<Value>)
    | Obj(fields: map<string, Value>)

  /** A stored document, as the Python dictionary the backend handles. */
  type Doc = map<string, Value>

  /** Python truthiness: `None`, zero, empty strings and empty containers are false. */
  predicate Truthy(v: Value) {
    match v
    case Null => false
    case Str(s) => s != ""
    case Int(i) => i != 0
    case Real(r) => r != 0.0
    case Bool(b) => b
    case Time(_) => true
    case List(items) => items != []
    case Obj(fields) => fields != map[]
  }

  /** `doc.get(key)`: the stored value, or `None` when the key is absent. */
  function Get(d: Doc, key: string): Value
  {
    if key in d then d[key] else Null
  }

  /** `doc.get(key, default)`: the default only when the key is absent. */
  function GetOr(d: Doc, key: string, default: Value): Value
  {
    if key in d then d[key] else default
  }

  /** An optional field as serialised: `None` becomes `null`. */
  function Opt<T>(o: Option<T>, f: T -> Value): Value
  {
    match o
    case Some(x) => f(x)
    case None => Null
  }

  function OptStr(o: Option<string>): Value { Opt(o, (s: string) => Str(s)) }
  function OptInt(o: Option<int>): Value { Opt(o, (i: int) => Int(i)) }
  function OptReal(o: Option<real>): Value { Opt(o, (r: real) => Real(r)) }
  function OptTime(o: Option<int>): Value { Opt(o, (t: int) => Time(t)) }

  /** A list of strings as serialised. */
  function StrList(s: seq<string>): Value
  {
    List(seq(|s|, i requires 0 <= i < |s| => Str(s[i])))
  }
}
