/**
 * Shared value types: an optional value, a success-or-error result, and the
 * kinds of error the plugin reports through its completion callbacks.
 */
module Common {

  datatype Option<+T> = None | Some(value: T)

  datatype Result<+T, +E> = Ok(value: T) | Err(error: E)

  /** The error object the vendor's HTTP client hands back with a failed call. */
  datatype RequestError = RequestError(errorGroup: string, errorCode: string, errorMessage: string)

  /**
   * The distinct ways an operation fails. Message texts are not modelled,
   * only which kind of failure reached the callback.
   */
  datatype Error =
    | MissingUri                      // apiCall rejected before calling the client
    | RequestFailed(cause: RequestError) // apiCall rejected because the client reported an error
    | Vendor(message: string)         // `new Error(error.errorMessage)` after a refused command
    | NoResponse                      // a property of a missing response object was read
    | NoService                       // setCharacteristic on an accessory whose service is unset
    | UnknownArmState(state: string)  // hapArmState met a vendor state it does not know
    | AccessoryNotFound               // plug or sensor label absent from the overview
    | DoorlockNotFound                // lock label absent from the search reply
    | AttemptsExhausted               // the transaction poller gave up ("to many attempts")
    | Transport(reason: string)       // an error passed on from auth, installations or overview
    | HttpStatus(statusCode: int)     // the legacy build hands the refused response itself to the callback
}
