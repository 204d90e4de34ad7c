/** The decoded JSON values that the service receives from its providers, and the
    few Python operations the code applies to them: `dict.get` with a default,
    subscripting with a string key, truthiness and `float(...)`. Each operation
    fails the way Python raises, so that the callers can model their `try` blocks. */
module Values {

  /** A decoded JSON document. Numbers are kept as `real`; their text form is
      handled by the caller-supplied conversions in `Services`. */
  datatype Value =
    | Null
    | Bool(b: bool)
    | Num(r: real)
    | Str(s: string)
    | Arr(items: seq<Value>)
    | Obj(fields: map<string, Value>)

  /** A Python dictionary built by the service (a POI record, an address record). */
  type Record = map<string, Value>

  /** The Python exceptions the core can raise, by kind. */
  datatype Failure =
    | HttpError(status: int, detail: string)  // an HTTPException raised by the code itself
    | RequestError                            // requests: no connection, timeout, raise_for_status
    | DecodeError                             // response.json() on a body that is not JSON
    | KeyError
    | TypeError
    | AttributeError
    | IndexError
    | ValueError

  datatype Result<T> = Ok(value: T) | Err(error: Failure) {
    predicate IsFailure() { Err? }
    function PropagateFailure<U>(): Result<U> requires Err? { Err(error) }
    function Extract(): T requires Ok? { value }
  }

  /** What one outbound HTTP call produced: no response at all, or a status code
      and a body that is either JSON or not. */
  datatype HttpReply = Unreachable | Reply(status: int, body: Option<Value>)

  datatype Option<T> = None | Some(value: T)

  const Unknown: Value := Str("Unknown")

  /** One vertex of a simplified route, as the coordinate pair `(x, y)` that the
      geometry library hands back. The routing engine's geometry is GeoJSON, so
      `x` is the longitude and `y` the latitude. */
  datatype Point = Point(x: real, y: real)

  /** The outside world as seen by the core: the four HTTP endpoints it calls
      (place search, reverse geocoding, Overpass and the routing engine), the
      route simplifier, and Python's conversions between floats and text. */
  datatype Services = Services(
    search: string -> HttpReply,          // forward geocoding of a place name
    reverse: (Value, Value) -> HttpReply, // reverse geocoding of (lat, lon)
    overpass: string -> HttpReply,        // an Overpass QL query
    routing: string -> HttpReply,         // a routing-engine URL
    simplify: Value -> Result<seq<Point>>,
    parse: string -> Option<real>,        // float(text)
    show: real -> string)                 // f"{x}"

  /** `response.raise_for_status()` followed by `response.json()`. */
  function Fetch(reply: HttpReply): (r: Result<Value>)
    ensures r.Ok? <==> reply.Reply? && !(400 <= reply.status < 600) && reply.body.Some?
    ensures r.Ok? ==> r.value == reply.body.value
  {
    match reply
    case Unreachable => Err(RequestError)
    case Reply(status, body) =>
      if 400 <= status < 600 then Err(RequestError)
      else if body.None? then Err(DecodeError)
      else Ok(body.value)
  }

  /** `v.get(key, default)`: only a dictionary has `get`. */
  function DictGet(v: Value, key: string, default: Value): (r: Result<Value>)
    ensures r.Ok? <==> v.Obj?
    ensures r.Ok? ==> r.value == (if key in v.fields then v.fields[key] else default)
  {
    if !v.Obj? then Err(AttributeError)
    else if key in v.fields then Ok(v.fields[key])
    else Ok(default)
  }

  /** `v[key]` with a string key: a missing key raises KeyError, a value that is
      not a dictionary raises TypeError. */
  function Subscript(v: Value, key: string): (r: Result<Value>)
    ensures r.Ok? <==> v.Obj? && key in v.fields
    ensures r.Ok? ==> r.value == v.fields[key]
    ensures r.Err? && v.Obj? ==> r.error == KeyError
    ensures r.Err? && !v.Obj? ==> r.error == TypeError
  {
    if !v.Obj? then Err(TypeError)
    else if key in v.fields then Ok(v.fields[key])
    else Err(KeyError)
  }

  /** `v[0]`: the first item of a list or the first character of a string; a
      dictionary decoded from JSON has no integer key 0. */
  function First(v: Value): (r: Result<Value>)
    ensures v.Arr? && v.items != [] ==> r == Ok(v.items[0])
    ensures r.Ok? ==> (v.Arr? && v.items != []) || (v.Str? && v.s != "")
  {
    match v
    case Arr(items) => if items == [] then Err(IndexError) else Ok(items[0])
    case Str(s) => if s == "" then Err(IndexError) else Ok(Str([s[0]]))
    case Obj(_) => Err(KeyError)
    case _ => Err(TypeError)
  }

  /** Python truthiness, as used by `if not data`. */
  predicate Truthy(v: Value) {
    match v
    case Null => false
    case Bool(b) => b
    case Num(r) => r != 0.0
    case Str(s) => s != ""
    case Arr(items) => items != []
    case Obj(fields) => fields != map[]
  }

  /** The falsy JSON values: null, false, zero, and the empty text, list and
      dictionary. */
  lemma FalsyValues(v: Value)
    ensures !Truthy(v) <==> v == Null || v == Bool(false) || v == Num(0.0) || v == Str("") || v == Arr([]) || v == Obj(map[])
  {
    if v.Arr? && v.items == [] {
      assert v == Arr([]);
    }
  }

  /** `float(v)`, with `parse` standing for Python's conversion of text to a float. */
  function ToFloat(v: Value, parse: string -> Option<real>): (r: Result<real>)
    ensures v.Num? ==> r == Ok(v.r)
    ensures v.Bool? ==> r == Ok(if v.b then 1.0 else 0.0)
    ensures v.Str? ==> (r.Ok? <==> parse(v.s).Some?) && (r.Ok? ==> r.value == parse(v.s).value)
    ensures r.Ok? ==> v.Num? || v.Bool? || (v.Str? && parse(v.s).Some?)
  {
    match v
    case Num(x) => Ok(x)
    case Bool(b) => Ok(if b then 1.0 else 0.0)
    case Str(s) => if parse(s).Some? then Ok(parse(s).value) else Err(ValueError)
    case _ => Err(TypeError)
  }

  /** The items a `for` loop visits when every item is then subscripted with a
      string key, as both loops of the service do. Iterating a non-empty
      dictionary or string yields strings, and subscripting the first of them
      raises TypeError; the model raises that error here, before any item is
      processed, which has the same outcome for both loops. */
  function ItemsToSubscript(v: Value): (r: Result<seq<Value>>)
    ensures r.Ok? && r.value != [] ==> v.Arr? && r.value == v.items
    ensures v.Arr? ==> r == Ok(v.items)
    ensures r.Ok? <==> v.Arr? || v == Obj(map[]) || v == Str("")
  {
    match v
    case Arr(items) => Ok(items)
    case Obj(fields) => if fields == map[] then Ok([]) else Err(TypeError)
    case Str(s) => if s == "" then Ok([]) else Err(TypeError)
    case _ => Err(TypeError)
  }
}
