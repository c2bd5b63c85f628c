/**
 * The JSON values the providers store, and `JSON.parse`/`JSON.stringify` taken as a
 * pair of functions supplied from outside: parsing may fail (it throws in
 * JavaScript), stringifying never does.
 */
module Json {
  import opened Wrappers

  /** A scalar JSON value; numbers are whole numbers here. */
  datatype JsonValue = JNull | JBool(b: bool) | JNum(n: int) | JStr(s: string)

  /** A flat JSON object, such as a user record or a location descriptor. */
  type JsonObject = map<string, JsonValue>

  /** JavaScript truthiness of a value. */
  predicate Truthy(v: JsonValue) {
    match v
    case JNull => false
    case JBool(b) => b
    case JNum(n) => n != 0
    case JStr(s) => s != ""
  }

  /** `JSON.parse` (None when it throws) and `JSON.stringify` for records of type T. */
  datatype Codec<!T> = Codec(parse: string -> Option<T>, stringify: T -> string)

  /** Parsing what was stringified gives the record back. */
  ghost predicate RoundTrips<T(!new)>(codec: Codec<T>) {
    forall x: T :: codec.parse(codec.stringify(x)) == Some(x)
  }

  /** JavaScript truthiness of a stored string: present and non-empty. */
  predicate IsPresent(stored: Option<string>) {
    stored.Some? && stored.value != ""
  }

  /** `value || fallback` for an optional string: the value when it is present and
      non-empty, the fallback otherwise. */
  function OrElse(value: Option<string>, fallback: string): (r: string)
    ensures IsPresent(value) ==> r == value.value
    ensures !IsPresent(value) ==> r == fallback
  {
    if IsPresent(value) then value.value else fallback
  }
}
