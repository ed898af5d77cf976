/** The error values the core produces or passes along. */
module Errors {
  import Strconv

  /** The payload of a structured server error: `Fault.FaultString` and `Fault.Detail.ErrorCode`. */
  datatype Fault = Fault(faultString: string, errorCode: string)

  /** `TradierError` (interface.go): a fault, the HTTP status it came with, and a message. */
  datatype TradierError = TradierError(fault: Fault, httpStatusCode: int, message: string)

  datatype Error =
    | NumErr(num: Strconv.NumError)       // from strconv
    | Tradier(te: TradierError)           // a server error, structured or opaque
    | Foreign(text: string)               // from a collaborator outside the model (net/http, encoding/json)
    | Message(text: string)               // made by fmt.Errorf or errors.New
    | Wrapped(context: string, cause: Error)  // errors.Wrapf(cause, context)

  /** The error code the server sends when a response would be too large. */
  const ErrBodyBufferOverflow: string := "protocol.http.TooBigBody"

  predicate IsBodyTooBig(e: Error) {
    e.Tradier? && e.te.fault.errorCode == ErrBodyBufferOverflow
  }
}
