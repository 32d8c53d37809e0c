/** The browser values the client components pass around. */
module Browser {
  import opened Wrappers

  /** A `File` the user picked: only its name and MIME type matter to the components. */
  datatype File = File(name: string, mimeType: string)

  /** What a rejected promise carries: an `Error` with its message, or any other thrown value. */
  datatype Thrown = ErrorInstance(message: string) | OtherValue

  /**
   * `error instanceof Error ? error.message : fallback`: the page shows its
   * own fallback text exactly when the value is not an Error, or is an Error
   * whose message happens to be that text.
   */
  function ErrorMessage(t: Thrown, fallback: string): (m: string)
    ensures m == fallback <==> t.OtherValue? || t.message == fallback
    ensures t.ErrorInstance? ==> m == t.message
  {
    match t
    case ErrorInstance(message) => message
    case OtherValue => fallback
  }

  /** A `string | null` state value used as a JavaScript condition: null and "" are falsy. */
  predicate TruthyText(s: Option<string>)
  {
    s.Some? && s.value != ""
  }
}
