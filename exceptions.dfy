/**
  The failures the customer domain raises (src/domain/customer/exceptions/).
  Only the kind of each failure is kept; the message text is not modelled.
  A thrown exception becomes an `Err` result.
*/
module Exceptions {

  /** InvalidNameException, InvalidZipCodeException and FutureBirthdayException. */
  datatype Error = InvalidName | InvalidZipCode | FutureBirthday

  /** Either the value an operation returns or the exception it throws. */
  datatype Result<+T> = Ok(value: T) | Err(error: Error)
}
