/** JavaScript's optional values: a property that may be `null` or
    `undefined`, and the nullish-coalescing operator `??`. */
module Nullish {

  /** A value that may be absent (`null`/`undefined` in the source). */
  datatype Option<+T> = None | Some(value: T)

  /** `o ?? d`: the value when present (whatever it is, including `0` or
      `""`), otherwise the fallback. */
  function Coalesce<T>(o: Option<T>, d: T): (r: T)
    ensures o.Some? ==> r == o.value
    ensures o.None? ==> r == d
  {
    match o
    case Some(v) => v
    case None => d
  }
}
