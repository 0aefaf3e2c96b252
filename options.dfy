/** The optional value used wherever the source has `null`, `undefined` or an absent
    key, and the outcome of a backend call the pages wait for. */
module Options {

  datatype Option<+T> = None | Some(value: T) {

    /** `x || fallback` for a value that is absent or present. */
    function GetOr(fallback: T): T {
      match this
      case Some(v) => v
      case None => fallback
    }

    /** The value as a list of at most one element: what a conditional `push` adds. */
    function ToSeq(): (s: seq<T>)
      ensures |s| <= 1
      ensures Some? ==> s == [value]
      ensures None? ==> s == []
    {
      match this
      case Some(v) => [v]
      case None => []
    }
  }

  /** `message || fallback` on a string: an absent and an empty message both fall back. */
  function MessageOr(message: Option<string>, fallback: string): (r: string)
    ensures message.Some? && message.value != "" ==> r == message.value
    ensures message.None? || message.value == "" ==> r == fallback
  {
    if message.Some? && message.value != "" then message.value else fallback
  }

  /** A backend call either resolves with a value or rejects with an error whose
      message may be missing. */
  datatype Outcome<+T> = Success(value: T) | Failure(message: Option<string>)
}
