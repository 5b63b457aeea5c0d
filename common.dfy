/** Values shared by every handler: optional values, JavaScript truthiness, middleware outcomes. */
module Common {

  /** An optional value: `null`/`undefined` in the source become `None`. */
  datatype Option<+T> = None | Some(value: T) {
    /** The `??` operator: the value, or `default` when it is missing. */
    function GetOr(default: T): (v: T)
      ensures this.Some? ==> v == this.value
      ensures this.None? ==> v == default
    {
      match this
      case Some(v) => v
      case None => default
    }
  }

  /** JavaScript truthiness of an optional string: `undefined`, `null` and `""` are falsy. */
  predicate Truthy(s: Option<string>): (b: bool)
    ensures !b <==> s == None || s == Some("")
  {
    s.Some? && s.value != ""
  }

  /** JavaScript truthiness of an optional number: `undefined`, `null` and `0` are falsy. */
  predicate TruthyNum(n: Option<int>): (b: bool)
    ensures !b <==> n == None || n == Some(0)
  {
    n.Some? && n.value != 0
  }

  /** A user object as a request carries it, untyped: its `rol` may be missing. */
  datatype Principal = Principal(rol: Option<string>)

  /** What an Express middleware does with a request: it calls `next()`, or it sends a reply. */
  datatype Outcome = Next | Reply(status: int, message: string)
}
