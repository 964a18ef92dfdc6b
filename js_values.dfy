/** Values the TypeScript code works with: optional values, results with an
    error side, and parsed JSON together with JavaScript's notion of
    truthiness and property access on a parsed value. */
module JsValues {

  /** `T | null | undefined` in the source. */
  datatype Option<+T> = None | Some(value: T)

  /** A value or an error; also stands for a call that may throw. */
  datatype Result<+T, +E> = Ok(value: T) | Err(error: E)

  /** A value produced by `JSON.parse`. Numbers are kept as reals; the
      model never needs more of them than "zero or not". */
  datatype JsonValue =
    | JNull
    | JBool(b: bool)
    | JNumber(n: real)
    | JString(s: string)
    | JArray(items: seq<JsonValue>)
    | JObject(members: seq<(string, JsonValue)>)

  /** What `JSON.parse` gives: a value, or the message of the SyntaxError it throws. */
  type ParseResult = Result<JsonValue, string>

  /** JavaScript truthiness of a JSON value (`!!v`). */
  predicate Truthy(v: JsonValue) {
    match v
    case JNull => false
    case JBool(b) => b
    case JNumber(n) => n != 0.0
    case JString(s) => s != ""
    case JArray(_) => true
    case JObject(_) => true
  }

  /** Truthiness of a property that may be `undefined`. */
  predicate TruthyField(v: Option<JsonValue>) {
    v.Some? && Truthy(v.value)
  }

  /** Position `k` holds the last member with `key`. */
  predicate LastWithKey(members: seq<(string, JsonValue)>, key: string, k: int) {
    0 <= k < |members| && members[k].0 == key
    && forall k' :: k < k' < |members| ==> members[k'].0 != key
  }

  /** The position of the last member with `key`, or -1 when none has it. */
  function LastIndexOf(members: seq<(string, JsonValue)>, key: string): (k: int)
    ensures -1 <= k < |members|
    ensures k >= 0 ==> LastWithKey(members, key, k)
    ensures k < 0 ==> forall j :: 0 <= j < |members| ==> members[j].0 != key
  {
    if members == [] then -1
    else if members[|members| - 1].0 == key then |members| - 1
    else LastIndexOf(members[..|members| - 1], key)
  }

  /** The value `JSON.parse` keeps for `key` in an object: the value of the
      last member with that key, or nothing when no member has it. */
  function Lookup(members: seq<(string, JsonValue)>, key: string): (r: Option<JsonValue>)
    ensures r.None? <==> forall k :: 0 <= k < |members| ==> members[k].0 != key
    ensures r.Some? ==> exists k :: LastWithKey(members, key, k) && members[k].1 == r.value
  {
    var k := LastIndexOf(members, key);
    if k < 0 then None else Some(members[k].1)
  }

  /** The TypeError that reading a property of `null` throws. */
  datatype TypeError = NullPropertyRead(key: string)

  /** `v.key` on a parsed JSON value, for the keys the core reads (none of
      them a built-in property such as `length`): `null` throws, an object
      yields its member (or `undefined`), any other value yields `undefined`. */
  function Property(v: JsonValue, key: string): (r: Result<Option<JsonValue>, TypeError>)
    ensures r.Err? <==> v.JNull?
    ensures r.Err? ==> r.error == NullPropertyRead(key)
    ensures r.Ok? && r.value.Some? ==> v.JObject?
    ensures v.JObject? ==> r == Ok(Lookup(v.members, key))
  {
    match v
    case JNull => Err(NullPropertyRead(key))
    case JObject(members) => Ok(Lookup(members, key))
    case _ => Ok(None)
  }
}
