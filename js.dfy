/**
 * JavaScript values as the front end sees them, and the results of the calls
 * it makes into code that is not part of this model (the sweepstakes SDK, the
 * browser wallet extension). Such a call either resolves with a value or
 * throws; a thrown `Error` carries a message, anything else thrown does not.
 */
module Js {

  datatype Option<+T> = None | Some(value: T)

  /** The outcome of one awaited call into the SDK or the wallet extension. */
  datatype Reply<+T> = Returned(value: T) | Threw(message: Option<string>)

  /**
   * `err instanceof Error ? err.message : fallback`, the error text every
   * catch block of the provider stores.
   */
  function ErrorText(message: Option<string>, fallback: string): (r: string)
    ensures message.None? ==> r == fallback
    ensures message.Some? ==> r == message.value
  {
    match message
    case Some(m) => m
    case None => fallback
  }

  /** The property values the pull list reads out of an SDK record. */
  datatype Value = Str(text: string) | Num(n: int)

  /** A plain object: its property names and their values. */
  type JsObject = map<string, Value>

  /** JavaScript truthiness of an optional string: present and non-empty. */
  predicate Truthy(s: Option<string>)
  {
    s.Some? && s.value != []
  }

  ghost predicate NoDuplicates<T>(s: seq<T>)
  {
    forall i, j | 0 <= i < j < |s| :: s[i] != s[j]
  }
}
