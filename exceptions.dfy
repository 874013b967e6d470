/**
 * The errors the vehicle module raises or meets: the custom exception of
 * vehicle/exceptions/custom_exception.py with its eight kinds from
 * vehicle/exceptions/vehicle_exceptions.py, and the Python and SQLAlchemy
 * exceptions the handlers catch.
 */
module Exceptions {
  import opened Fields

  /** The eight subclasses of CustomException; none subclasses another. */
  datatype ErrorKind =
    | VehicleNotFoundError
    | InvalidVehicleIdError
    | CustomNotFoundException
    | MultipleResultsFoundError
    | CustomDatabaseException
    | VehicleAlreadyExistsError
    | VehicleAlreadySoldError
    | VehicleSaleNotInitializedError

  /** The eight kinds, in declaration order. */
  const Kinds: seq<ErrorKind> := [
    VehicleNotFoundError, InvalidVehicleIdError, CustomNotFoundException, MultipleResultsFoundError,
    CustomDatabaseException, VehicleAlreadyExistsError, VehicleAlreadySoldError,
    VehicleSaleNotInitializedError]

  /** An instance of one kind: its message and its status code, set once. */
  datatype CustomException = CustomException(kind: ErrorKind, message: string, statusCode: int)

  /** `Kind(message, status_code)`, with status_code defaulting to 500 and no range check. */
  function Raise(kind: ErrorKind, message: string, statusCode: int := 500): (e: CustomException)
    ensures e.kind == kind && e.message == message && e.statusCode == statusCode
  {
    CustomException(kind, message, statusCode)
  }

  /** `str(e)`: the message given to `Exception.__init__`. */
  function AsString(e: CustomException): string {
    e.message
  }

  /** The SQLAlchemy errors: the first three are the subclasses the decorator names. */
  datatype StorageError =
    | NoResultFound
    | MultipleResultsFound
    | IntegrityError
    | OtherSqlAlchemyError(detail: string)

  /** Everything a wrapped call can raise. */
  datatype Error =
    | ValidationError(errors: seq<FieldError>)   // pydantic's, a subclass of ValueError
    | Custom(exception: CustomException)
    | KeyError(key: string)
    | ValueError(message: string)
    | AttributeError(message: string)
    | Storage(failure: StorageError)
    | OtherException(message: string)

  /** `isinstance(e, ValueError)`: pydantic's ValidationError is one. */
  predicate IsValueError(e: Error) {
    e.ValidationError? || e.ValueError?
  }

  /** `isinstance(e, SQLAlchemyError)`. */
  predicate IsSqlAlchemyError(e: Error) {
    e.Storage?
  }

  /** Exactly eight kinds are declared, each once. */
  lemma EightKinds()
    ensures |Kinds| == 8
    ensures forall i, j :: 0 <= i < j < |Kinds| ==> Kinds[i] != Kinds[j]
    ensures forall k: ErrorKind :: k in Kinds
  {
    forall k: ErrorKind ensures k in Kinds {
      match k
      case VehicleNotFoundError => assert Kinds[0] == k;
      case InvalidVehicleIdError => assert Kinds[1] == k;
      case CustomNotFoundException => assert Kinds[2] == k;
      case MultipleResultsFoundError => assert Kinds[3] == k;
      case CustomDatabaseException => assert Kinds[4] == k;
      case VehicleAlreadyExistsError => assert Kinds[5] == k;
      case VehicleAlreadySoldError => assert Kinds[6] == k;
      case VehicleSaleNotInitializedError => assert Kinds[7] == k;
    }
  }

  /** Every kind carries the given message and defaults its status code to 500. */
  lemma DefaultStatusCode(kind: ErrorKind, message: string)
    ensures Raise(kind, message).statusCode == 500
    ensures Raise(kind, message).message == message
    ensures AsString(Raise(kind, message)) == message
  {
  }
}
