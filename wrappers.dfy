/** The optional value used wherever the source has `undefined`, `null` or an optional property. */
module Wrappers {

  datatype Option<+T> = None | Some(value: T) {

    /** The value, or `default` when absent (the `??` operator). */
    function GetOr(default: T): T {
      match this
      case Some(v) => v
      case None => default
    }
  }

  /** A spread of one property: `after` is the supplied value when there is one, and `before` otherwise. */
  predicate TakesOrKeeps<T(==)>(supplied: Option<T>, before: T, after: T) {
    if supplied.Some? then after == supplied.value else after == before
  }

  /** JavaScript truthiness of a `string | null` value: null and the empty string are false. */
  predicate Truthy(s: Option<string>) {
    s.Some? && s.value != ""
  }
}
