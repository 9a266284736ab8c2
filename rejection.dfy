/** What the `catch` blocks of the four thunks (`register`, `login`, `createDelivery`,
    `getDeliveries`) hand to `rejectWithValue`, and how a `rejected` case turns that payload
    into `errorMessage`. */
module Rejection {
  import opened Types

  /** A value a service call can throw, as far as the `catch` blocks tell values apart.
      `instanceof Error` and `typeof === 'string'` never hold together, so the order of the
      first two tests is not observable; the constructors are disjoint for that reason. */
  datatype Thrown =
    | NativeError(message: string)
    | StringError(text: string)
    /** Any other value, such as an HTTP client error `{ response: { data: { message } } }`. */
    | OtherValue(providerMessage: Option<string>)

  /** The payload passed to `rejectWithValue`: a string, or the arrow function that the third
      branch assigns to `message` (it is never called, so its body does not matter). */
  datatype RejectPayload = Text(text: string) | MessageGetter

  /** The outcome of an awaited service call inside a thunk's `try`. */
  datatype ServiceOutcome<T> = Resolved(value: T) | Threw(error: Thrown)

  /** The `if / else if / else` chain of a thunk's `catch` block. */
  function ExtractPayload(e: Thrown): RejectPayload
  {
    match e
    case NativeError(m) => Text(m)
    case StringError(s) => Text(s)
    case OtherValue(_) => MessageGetter
  }

  /** `typeof action.payload === 'string' ? action.payload : JSON.stringify(action.payload)`;
      `stringify` stands for `JSON.stringify`, which the model leaves uninterpreted. */
  function StoredMessage(p: RejectPayload, stringify: RejectPayload -> string): string
  {
    if p.Text? then p.text else stringify(p)
  }

  /** The message a rejected case stores for a thrown value: an `Error`'s own message, a thrown
      string verbatim, and for anything else the serialisation of the arrow function. */
  lemma MessageOfThrown(e: Thrown, stringify: RejectPayload -> string)
    ensures e.NativeError? ==> StoredMessage(ExtractPayload(e), stringify) == e.message
    ensures e.StringError? ==> StoredMessage(ExtractPayload(e), stringify) == e.text
    ensures e.OtherValue? ==> StoredMessage(ExtractPayload(e), stringify) == stringify(MessageGetter)
  {
  }

  /** A structured provider error loses its message: any two such errors, whatever messages they
      carry, produce the same payload and hence the same stored `errorMessage`. */
  lemma ProviderMessageIgnored(e1: Thrown, e2: Thrown, stringify: RejectPayload -> string)
    requires e1.OtherValue? && e2.OtherValue?
    ensures ExtractPayload(e1) == ExtractPayload(e2) == MessageGetter
    ensures StoredMessage(ExtractPayload(e1), stringify) == StoredMessage(ExtractPayload(e2), stringify)
  {
  }
}
