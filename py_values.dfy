/** Python-side values the three scripts work with: the result of a call to an
    external service, JSON values loaded from the dataset file, and the bits of
    Python semantics (truthiness, dict.get, str.strip, slicing) the scripts rely on. */
module PyValues {

  /** What an external service call gives back: a value, or the library's
      exception (APIError, PineconeException, Neo4jError). */
  datatype Outcome<+T> = Ok(value: T) | Err

  datatype Option<+T> = None | Some(value: T)

  /** A JSON value as json.load returns it. Numbers are kept as integers:
      the scripts never compute with them. */
  datatype Json =
    | JNull
    | JBool(b: bool)
    | JNum(n: int)
    | JStr(s: string)
    | JArr(items: seq<Json>)
    | JObj(fields: map<string, Json>)

  type JsonObject = map<string, Json>

  /** The nodes the dataset file holds, as json.load returns them; none when the
      file cannot be opened or parsed (the loaders log the error and go on with []). */
  function Loaded(file: Outcome<seq<JsonObject>>): seq<JsonObject> {
    if file.Ok? then file.value else []
  }

  /** An embedding vector. Its numbers are never inspected: only whether it is empty matters. */
  type Embedding = seq<real>

  /** Python truthiness of a JSON value: None, False, 0, "", [] and {} are false. */
  predicate Truthy(v: Json) {
    match v
    case JNull => false
    case JBool(b) => b
    case JNum(n) => n != 0
    case JStr(s) => s != ""
    case JArr(items) => items != []
    case JObj(fields) => fields != map[]
  }

  /** `obj.get(key, default)`. */
  function GetOr(obj: JsonObject, key: string, default: Json): (v: Json)
    ensures key in obj ==> v == obj[key]
    ensures key !in obj ==> v == default
  {
    if key in obj then obj[key] else default
  }

  /** `obj.get(key)`: None when the key is absent. */
  function Get(obj: JsonObject, key: string): Json {
    GetOr(obj, key, JNull)
  }

  function Min(a: nat, b: nat): nat {
    if a <= b then a else b
  }

  /** `s[:n]`: at most the first n characters. */
  function Take<T>(s: seq<T>, n: nat): (r: seq<T>)
    ensures |r| == Min(n, |s|) && r <= s
  {
    s[..Min(n, |s|)]
  }

  /** `sub in s` on strings: sub occurs in s as a contiguous substring. */
  predicate Contains(s: string, sub: string)
    decreases |s|
  {
    sub <= s || (s != [] && Contains(s[1..], sub))
  }

  /** The characters Python's str.strip() removes when called without arguments. */
  predicate IsSpace(c: char) {
    var k := c as int;
    k == 0x20 || 0x09 <= k <= 0x0D || 0x1C <= k <= 0x1F || k == 0x85 || k == 0xA0
    || k == 0x1680 || 0x2000 <= k <= 0x200A || k == 0x2028 || k == 0x2029
    || k == 0x202F || k == 0x205F || k == 0x3000
  }

  /** `not s.strip()`: s is empty or made of whitespace only. */
  predicate IsBlank(s: string) {
    forall i :: 0 <= i < |s| ==> IsSpace(s[i])
  }
}
