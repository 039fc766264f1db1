/** Optional values, results and the exceptions the rig's Python code raises. */
module Wrappers {

  /** A value that may be absent (Python `None`, or a dictionary key that is not there). */
  datatype Option<+T> = None | Some(value: T)

  /** The exceptions the modelled code can raise. */
  datatype Exception =
    | UnknownPin(name: string)        // a pin name that is not in the pin table
    | NotOutputPin(name: string)      // a write to a pin that is not configured as an output
    | UnknownPinType(name: string)    // an io type that is neither input nor output
    | UnknownPinNumber(number: int)   // a physical pin number outside the valid set
    | MissingPinValue(name: string)   // an output pin without a (truthy) shadow value
    | KeyError(key: string)           // a dictionary lookup of a missing key
    | TypeError                       // arithmetic or a call on values of the wrong type
    | ZeroDivisionError               // a division by zero
    | ValueError                      // `sleep` of a negative duration
    | ReraiseWithoutException         // a bare `raise` outside an exception handler
    | ModalNotOpen                    // close_calibration_gui with no calibration window
    | UnreadableFile                  // `open` or `json.load` of a missing or malformed file

  /** The value of a computation that may raise. */
  datatype Result<+T> = Ok(value: T) | Err(error: Exception)

  /** The outcome of a statement that may raise. */
  datatype Outcome = Pass | Fail(error: Exception)
}
