/** Document values: object ids, and the JSON form of a stored document. */
module Bson {
  import Argon2

  /** A MongoDB ObjectId, modelled as a number drawn from one counter. */
  type ObjectId = nat

  datatype Value =
    | Str(s: string)
    | Bool(b: bool)
    | Num(n: int)
    | Null
    | Oid(id: ObjectId)
    | Digest(secret: Argon2.Secret)   // the stored password field, as it is serialized

  type Object = map<string, Value>

  /** lodash `omit(object, keys)`: the object without the listed keys. */
  function Omit(o: Object, keys: seq<string>): (r: Object)
    ensures r.Keys == o.Keys - set k | k in keys
    ensures forall k | k in r :: r[k] == o[k]
  {
    map k | k in o && k !in keys :: o[k]
  }

  /** Decimal text of an id, as interpolated into email bodies. */
  function IdText(n: ObjectId): (s: string)
    ensures |s| > 0
    decreases n
  {
    if n < 10 then [Digit(n)] else IdText(n / 10) + [Digit(n % 10)]
  }

  function Digit(d: nat): char
    requires d < 10
  {
    "0123456789"[d]
  }
}
