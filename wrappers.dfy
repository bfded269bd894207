/** Optional values: JavaScript's `null`/`undefined` versus a present value. */
module Wrappers {
  datatype Option<T> = None | Some(value: T)

  /** JavaScript's `o ?? d`: the value when present, otherwise the default. */
  function Coalesce<T>(o: Option<T>, d: T): (r: T)
    ensures o.Some? ==> r == o.value
    ensures o.None? ==> r == d
  {
    if o.Some? then o.value else d
  }

  /** JavaScript's `a ?? b` between two optional values. */
  function OrElse<T>(a: Option<T>, b: Option<T>): (r: Option<T>)
    ensures a.Some? ==> r == a
    ensures a.None? ==> r == b
  {
    if a.Some? then a else b
  }
}
