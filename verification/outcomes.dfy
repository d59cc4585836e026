/** Values shared by the service and the component: an optional value (a
    `string | null` state field), what a JavaScript `throw` can carry, and how
    an awaited call settles. */
module Outcomes {

  /** `T | null`: a value, or `null`. */
  datatype Option<+T> = None | Some(value: T)

  /** What a `throw` carries. `ErrorValue` is an object for which
      `instanceof Error` holds, with its `message`; `OtherValue` is anything
      else (a string, a plain object, `undefined`, ...). */
  datatype Thrown = ErrorValue(message: string) | OtherValue

  /** How an awaited call settled: it resolved with a value or it rejected
      with a thrown value. */
  datatype Completion<+T> = Returned(value: T) | Raised(thrown: Thrown)
}
