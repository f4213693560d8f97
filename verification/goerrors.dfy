/** Go's `error` values, reduced to what the checks observe of them. */
module GoErrors {
  import opened Options

  /** A non-nil Go error: `kind` is its dynamic type (for example
      `*errors.errorString`), `text` what its `Error()` method returns. */
  datatype GoError = GoError(kind: string, text: string) {
    /** Go's `err.Error()`. */
    function Error(): string { text }
  }

  /** An `error` variable: `None` is `nil`. */
  type Err = Option<GoError>

  /** The message an optional error carries, `None` when there is no error. */
  function MessageOf(e: Err): Option<string>
  {
    match e
    case None => None
    case Some(err) => Some(err.Error())
  }

  /** The equivalence rule for errors: both nil, or both non-nil with the same
      `Error()` text, whatever their dynamic types. */
  predicate Equivalent(expected: Err, got: Err)
  {
    || (expected.None? && got.None?)
    || (expected.Some? && got.Some? && expected.value.Error() == got.value.Error())
  }

  /** Equivalence is exactly equality of the carried messages. */
  lemma EquivalentIsSameMessage(expected: Err, got: Err)
    ensures Equivalent(expected, got) <==> MessageOf(expected) == MessageOf(got)
  {
  }
}
