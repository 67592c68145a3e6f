/** Values of the JavaScript runtime that the composables of the mail editor
    handle: UTF-16 text, thrown values, parsed JSON and asynchronous results.
 */
module JsValues {

  /** One UTF-16 code unit. JavaScript strings, `.length` and regular
      expressions without the `u` flag all work on these units. */
  newtype Unit = u: int | 0 <= u < 0x1_0000

  /** A JavaScript string seen as its sequence of UTF-16 code units. */
  type Text = seq<Unit>

  /** The code units of a literal whose characters all lie in the Basic
      Multilingual Plane (one unit per character). */
  function Bmp(s: string): (r: Text)
    requires forall i :: 0 <= i < |s| ==> s[i] as int < 0x1_0000
    ensures |r| == |s|
    ensures forall i :: 0 <= i < |s| ==> r[i] as int == s[i] as int
  {
    seq(|s|, i requires 0 <= i < |s| => s[i] as int as Unit)
  }

  datatype Option<T> = None | Some(value: T)

  /** What a `catch` clause can receive: an `Error` object with its message,
      or any other thrown value. */
  datatype Thrown = ErrorObject(message: string) | NonError

  /** `err instanceof Error ? err.message : fallback` */
  function MessageOr(t: Thrown, fallback: string): string
  {
    match t
    case ErrorObject(m) => m
    case NonError => fallback
  }

  /** The generic fallback message for a thrown value that is not an `Error`. */
  const UnknownError: string := "Неизвестная ошибка"

  /** A value produced by `JSON.parse`, or handed to an operation that expects
      design data. Numbers are kept as reals; NaN and the infinities never come
      out of `JSON.parse`. */
  datatype Json =
    | JNull
    | JBool(b: bool)
    | JNumber(n: real)
    | JString(s: Text)
    | JArray(items: seq<Json>)
    | JObject(fields: map<Text, Json>)

  /** The negation of the source's shape test `!v || typeof v !== 'object'`:
      the value is truthy and `typeof` reports `'object'`. Only arrays and
      plain objects pass; `null` is an object for `typeof` but is falsy. */
  predicate IsObject(v: Json)
  {
    v.JArray? || v.JObject?
  }

  /** The state of a promise returned by an operation: still waiting for a
      callback that has not fired yet, or resolved with a value. Where the
      value comes from a later event (a file reader's `onload`, say),
      `Resolved` stands for the state once that event's handler has run. */
  datatype Pending<T> = Resolved(value: T) | Awaiting
}
