/** The two-element tuples that app.py's functions return instead of raising:
    a value or `None`, and an error message or `None`. */
module Pairs {

  datatype Option<+T> = None | Some(value: T)

  /** The `(result, error)` tuple returned by `download_audio` and `transcribe_audio`. */
  datatype Reply = Reply(value: Option<string>, error: Option<string>)

  /** Python truthiness of an `Optional[str]`: `None` and `""` are false. */
  predicate Truthy(o: Option<string>) {
    o.Some? && o.value != ""
  }

  /** Exactly one of the two components is present. */
  predicate OneOf(r: Reply) {
    r.value.Some? != r.error.Some?
  }
}
