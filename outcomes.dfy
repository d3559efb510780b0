/** Failure-carrying values shared by every operation of the service layer. */
module Outcomes {

  /** A JavaScript value that may be `undefined` (optional chaining yields None). */
  datatype Option<+T> = None | Some(value: T)

  /** The exceptions the service layer can raise or let through. */
  datatype Error =
    | ApiError(message: string)   // a rejection from the remote generative service
    | TypeError                   // reading a property of `undefined`
    | RangeError                  // an `Int16Array` view over an odd number of bytes
    | SyntaxError                 // `JSON.parse` on malformed text
    | KeyResetRequired            // `new Error("KEY_RESET_REQUIRED")`
    | NotSupportedError           // `createBuffer` with no channel, too many, or no frame

  /** How an awaited call ends: it resolves to a value or it throws. */
  datatype Outcome<+T> = Returns(value: T) | Throws(error: Error)
}
