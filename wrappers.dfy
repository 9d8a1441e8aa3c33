/** Option, Result and Outcome for the connector's nullable values and exceptions, and the
    failure kinds that the connector's code raises. */
module Wrappers {

  /** A Java reference that may be null. */
  datatype Option<+T> = None | Some(value: T) {
    function GetOr(default: T): T {
      match this
      case Some(v) => v
      case None => default
    }
  }

  /** The exceptions that leave the modelled code. The connector's own exception types all
      extend the framework's ConnectorException; unchecked Java exceptions that nobody catches
      are kept apart as RuntimeFailure, named by their Java class. */
  datatype Failure =
    | ConnectorError(message: string)          // ConnectorException(message)
    | NoSuchEntity(message: string)            // NoSuchEntityException(message)
    | ConfigurationError(key: string)          // ConfigurationException from failValidation(key)
    | InvalidAttributeValue(message: string)   // InvalidAttributeValueException(message)
    | UnsupportedOperation(message: string)    // java.lang.UnsupportedOperationException
    | RuntimeFailure(exception: string)        // e.g. "NullPointerException"
    | Wrapped(cause: Failure)                  // ConnectorException.wrap(cause) of a non-connector exception
  {
    /** True for the exceptions that are (subclasses of) ConnectorException. */
    predicate IsConnectorException() {
      ConnectorError? || NoSuchEntity? || ConfigurationError? || InvalidAttributeValue? || Wrapped?
    }
  }

  /** A value, or the exception that was thrown instead. */
  datatype Result<+T> = Success(value: T) | Failure(error: Failure) {
    predicate IsFailure() { Failure? }
    function PropagateFailure<U>(): Result<U>
      requires Failure?
    {
      Failure(error)
    }
    function Extract(): T
      requires Success?
    {
      value
    }
  }

  /** A void Java method: it returns normally, or it throws. */
  datatype Outcome = Pass | Fail(error: Failure) {
    predicate IsFailure() { Fail? }
    function PropagateFailure<U>(): Result<U>
      requires Fail?
    {
      Failure(error)
    }
  }

  const NullPointer: Failure := RuntimeFailure("NullPointerException")
  const ClassCast: Failure := RuntimeFailure("ClassCastException")
  const IndexOutOfBounds: Failure := RuntimeFailure("StringIndexOutOfBoundsException")
  const NumberFormat: Failure := RuntimeFailure("NumberFormatException")
}
