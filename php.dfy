/** The parts of PHP's semantics the target relies on. */
module Php {
  import opened Wrappers

  /** PHP's `empty()` on a property that holds a string or is null (or was never
      assigned): true exactly for null, the empty string and the string "0". */
  predicate Empty(v: Option<string>) {
    v == None || v == Some("") || v == Some("0")
  }
}
