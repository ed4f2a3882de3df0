/** Status codes, the Status value the request returns, and the C++ exceptions that
    OnExecute's outer catch turns into a status. */
module Errors {

  /** The error codes the request produces or inspects. Any other code a collaborator
      may return is carried by OtherCode; the numeric values live in utils/Error.h,
      which is not part of this model. */
  datatype ErrorCode =
    | Success
    | ServerUnexpectedError
    | ServerInvalidCollectionName
    | DbAlreadyExist
    | OtherCode(value: int)

  /** A status: a code and a human-readable message. */
  datatype Status = Status(code: ErrorCode, message: string) {
    /** Status::ok() */
    predicate IsOk() {
      code == Success
    }
  }

  /** Status::OK() */
  const OK: Status := Status(Success, "")

  /** The exceptions the pipeline can raise before the storage engine is reached. */
  datatype Exception =
    | OutOfRange                                  // unordered_map::at / map::at on a missing key
    | TypeError(expected: string, actual: string) // a JSON value converted to the wrong C++ type
    | ParseError(what: string)                    // json::parse on malformed text
    | Other(what: string)                         // any other std::exception, thrown by a collaborator

  /** ex.what() */
  function What(e: Exception): string {
    match e
    case OutOfRange => "_Map_base::at"
    case TypeError(expected, actual) =>
      "[json.exception.type_error.302] type must be " + expected + ", but is " + actual
    case ParseError(what) => what
    case Other(what) => what
  }

  /** The status the outer catch builds from an exception. */
  function Unexpected(e: Exception): Status {
    Status(ServerUnexpectedError, What(e))
  }

  /** A computation that either yields a value or throws. */
  datatype Result<T> = Ok(value: T) | Err(error: Exception)
}
