/** The exceptions the two copies of the module can raise, and the
    Option/Result wrappers the model uses in place of raising. */
module Errors {

  /** Python exception classes raised by the modelled code (directly or by numpy). */
  datatype Error =
    | ValueError          // non-commuting stabilizers; numpy shape/broadcast mismatch
    | IndexError          // numpy index out of bounds or boolean index of the wrong length
    | NotImplementedError // expect of a mixed state against a state observable
    | NameError           // a name that is not defined in the module is evaluated

  datatype Option<+T> = None | Some(value: T)

  datatype Result<+T> = Ok(value: T) | Err(error: Error)
}
