/** Values shared by every module: identifiers, the clock, and the loosely typed
    field values that the document database stores and the resolvers compare. */
module Values {
  datatype Option<+T> = None | Some(value: T)

  /** A database identifier (an ObjectId); only its identity matters. */
  type Id = nat

  /** A point on the wall clock, in milliseconds since the epoch (`Date.now()`). */
  type Millis = nat

  /** A stored or supplied field value, as the JavaScript code sees it. */
  datatype Value =
    | Nil                    // `null`
    | Text(s: string)
    | Ref(id: Id)            // an ObjectId reference
    | Refs(ids: seq<Id>)     // an array of ObjectId references
    | Number(n: int)
    | Flag(b: bool)
    | Instant(ms: Millis)    // a `Date`
    | Blob(tag: nat)         // a nested object the core never looks inside

  /** A record's payload: a missing key is JavaScript's `undefined`. */
  type Fields = map<string, Value>

  /** JavaScript truthiness; objects, arrays and dates are always truthy. */
  predicate Truthy(v: Value) {
    match v
    case Nil => false
    case Text(s) => s != ""
    case Number(n) => n != 0
    case Flag(b) => b
    case _ => true
  }

  /** `obj.key` is truthy: the key is present and its value is truthy. */
  predicate Supplied(f: Fields, key: string) {
    key in f && Truthy(f[key])
  }

  /** `obj.key`, reading a missing key as `null` (Mongo does not distinguish them in a filter). */
  function Field(f: Fields, key: string): Value {
    if key in f then f[key] else Nil
  }
}
