/** Optional values and the JavaScript truthiness rules the card visual relies on. */
module Values {

  /** A value that may be absent: JavaScript `null` or `undefined`. */
  datatype Option<+T> = None | Some(value: T)

  /** An optional string used as a JavaScript condition: null and "" are falsy. */
  predicate Truthy(o: Option<string>)
  {
    o.Some? && o.value != ""
  }

  /** JavaScript `a || b` where `a` is an optional string and `b` a string. */
  function OrElse(a: Option<string>, b: string): string
  {
    if Truthy(a) then a.value else b
  }
}
