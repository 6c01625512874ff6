/**
 * An optional value, standing for Python's `None` or a present value, and
 * the Python truthiness tests the connector applies to optional values.
 */
module Wrappers {

  datatype Option<+T> = None | Some(value: T)

  /** Python truthiness of an optional string (`not s` is false exactly for a non-empty string). */
  predicate IsSet(s: Option<string>) {
    s.Some? && s.value != ""
  }

  /** Python truthiness of an optional list: `not xs` holds for `None` and for `[]`. */
  predicate IsEmpty<T>(xs: Option<seq<T>>) {
    xs.None? || xs.value == []
  }
}
