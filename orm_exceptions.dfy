/**
 * The `handle_sqlalchemy_exceptions` decorator of
 * vehicle/infrastructure/database/exceptions/orm_exceptions.py: a storage
 * error raised by the wrapped call is re-raised as a domain error.
 */
module OrmExceptions {
  import opened Wrappers
  import opened Exceptions

  /** The except clauses in order; the last one catches every other SQLAlchemyError. */
  function Translate(s: StorageError): (e: CustomException)
  {
    match s
    case NoResultFound => Raise(CustomNotFoundException, "No result found", 404)
    case MultipleResultsFound => Raise(MultipleResultsFoundError, "Multiple results found", 400)
    case IntegrityError => Raise(VehicleAlreadyExistsError, "Vehicle already exists", 409)
    case OtherSqlAlchemyError(_) => Raise(CustomDatabaseException, "An error occurred", 500)
  }

  /**
   * The wrapper applied to the outcome of the wrapped call: a result passes
   * through, a storage error is translated, any other error propagates.
   */
  function HandleSqlAlchemyExceptions<T>(outcome: Result<T, Error>): (r: Result<T, Error>)
    ensures r.Success? <==> outcome.Success?
    ensures r.Failure? ==> !IsSqlAlchemyError(r.error)
  {
    match outcome
    case Success(_) => outcome
    case Failure(Storage(s)) => Failure(Custom(Translate(s)))
    case Failure(_) => outcome
  }

  /** Each clause: the storage error, the kind it becomes, and the message and status code. */
  lemma TranslationTable()
    ensures HandleSqlAlchemyExceptions<()>(Failure(Storage(NoResultFound)))
      == Failure(Custom(CustomException(CustomNotFoundException, "No result found", 404)))
    ensures HandleSqlAlchemyExceptions<()>(Failure(Storage(MultipleResultsFound)))
      == Failure(Custom(CustomException(MultipleResultsFoundError, "Multiple results found", 400)))
    ensures HandleSqlAlchemyExceptions<()>(Failure(Storage(IntegrityError)))
      == Failure(Custom(CustomException(VehicleAlreadyExistsError, "Vehicle already exists", 409)))
    ensures forall d: string ::
      (HandleSqlAlchemyExceptions<()>(Failure(Storage(OtherSqlAlchemyError(d))))
       == Failure(Custom(CustomException(CustomDatabaseException, "An error occurred", 500))))
  {
  }

  /** A result, and an error that is not a storage error, pass through unchanged. */
  lemma PassThrough<T>(outcome: Result<T, Error>)
    requires outcome.Success? || !IsSqlAlchemyError(outcome.error)
    ensures HandleSqlAlchemyExceptions(outcome) == outcome
  {
  }
}
