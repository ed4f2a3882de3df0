/** The JSON values the request reads, and the few library operations it applies to them
    (contains, operator[], get<T> and implicit conversion to std::string). Parsing and
    serialising are collaborators, given as a Codec. */
module Json {
  import opened Errors

  datatype Json =
    | Null
    | Boolean(b: bool)
    | Number(n: int)
    | Str(s: string)
    | Array(items: seq<Json>)
    | Object(members: map<string, Json>)

  /** json::parse (which may throw) and json::dump. */
  datatype Codec = Codec(parse: string -> Result<Json>, dump: Json -> string)

  /** json::type_name(), as it appears in conversion errors. */
  function TypeName(j: Json): string {
    match j
    case Null => "null"
    case Boolean(_) => "boolean"
    case Number(_) => "number"
    case Str(_) => "string"
    case Array(_) => "array"
    case Object(_) => "object"
  }

  /** json::contains(key): false for every value that is not an object. */
  predicate Contains(j: Json, key: string) {
    j.Object? && key in j.members
  }

  /** json::operator[](key) on a key that is present. */
  function Member(j: Json, key: string): Json
    requires Contains(j, key)
  {
    j.members[key]
  }

  /** Conversion of a JSON value to std::string: only a string converts. */
  function AsString(j: Json): (r: Result<string>)
    ensures r.Ok? <==> j.Str?
    ensures r.Ok? ==> r.value == j.s
    ensures r.Err? ==> r.error == TypeError("string", TypeName(j))
  {
    if j.Str? then Ok(j.s) else Err(TypeError("string", TypeName(j)))
  }

  /** get<uint16_t>(): numbers and booleans convert by a C++ static_cast, which keeps
      the value modulo 2^16; every other value throws. */
  function AsUint16(j: Json): (r: Result<nat>)
    ensures r.Ok? <==> j.Number? || j.Boolean?
    ensures r.Ok? ==> r.value < 0x1_0000
    ensures j.Number? && 0 <= j.n < 0x1_0000 ==> r == Ok(j.n)
    ensures j.Number? ==> (r.value - j.n) % 0x1_0000 == 0
    ensures j.Boolean? ==> r == Ok(if j.b then 1 else 0)
    ensures r.Err? ==> r.error == TypeError("number", TypeName(j))
  {
    match j
    case Number(n) => Ok(n % 0x1_0000)
    case Boolean(b) => Ok(if b then 1 else 0)
    case _ => Err(TypeError("number", TypeName(j)))
  }

  /** get<int64_t>(): int64_t is the library's own integer type, whose conversion accepts
      only numbers (wrapping into the signed 64-bit range); every other value, booleans
      included, throws. */
  function AsInt64(j: Json): (r: Result<int>)
    ensures r.Ok? <==> j.Number?
    ensures r.Ok? ==> -0x8000_0000_0000_0000 <= r.value < 0x8000_0000_0000_0000
    ensures j.Number? && -0x8000_0000_0000_0000 <= j.n < 0x8000_0000_0000_0000 ==> r == Ok(j.n)
    ensures j.Number? ==> (r.value - j.n) % 0x1_0000_0000_0000_0000 == 0
    ensures r.Err? ==> r.error == TypeError("number", TypeName(j))
  {
    match j
    case Number(n) => Ok((n + 0x8000_0000_0000_0000) % 0x1_0000_0000_0000_0000 - 0x8000_0000_0000_0000)
    case _ => Err(TypeError("number", TypeName(j)))
  }
}
