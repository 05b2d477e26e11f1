/**
  The exception hierarchy of rightshift and the result of calling a transformer.

  `TransformationException` derives from `BaseException`, so the library's
  `except Exception` handlers never catch it, while `Default` catches it and all
  of its subclasses.  `MatcherException` and `OperationException` derive from
  `RightShiftException`, whose own base class is not part of this model: every
  definition that depends on it takes a `RightShiftBase` saying which base it has,
  and every law is proved for all three choices.
 */
module Errors {

  datatype Option<+T> = None | Some(value: T)

  /** The subclasses of TransformationException raised by the core. */
  datatype TransformationKind =
    | Plain           // TransformationException itself, raised by a user transformer
    | ChainError      // ChainException
    | ExtractorError  // ExtractorException
    | BreakerError    // BreakerException
    | BreakError      // BreakException
    | ConditionError  // ConditionException

  /** The subclasses of RightShiftException raised by the core. */
  datatype RightShiftKind = MatcherError | OperationError

  /** The built-in Python exceptions (all subclasses of Exception) the core can meet. */
  datatype BuiltinKind =
    | TypeError
    | ValueError
    | IndexError
    | KeyError
    | ZeroDivisionError
    | StopIteration

  datatype Exception =
    | Transformation(kind: TransformationKind)
    | RightShift(rsKind: RightShiftKind)
    | Builtin(builtin: BuiltinKind)
      /** A result Python produces that this model does not represent (a float). */
    | OutsideModel

  /** Success with a value, or the exception that was raised. */
  datatype Result<+T> = Ok(value: T) | Raised(error: Exception)

  /** The possible base classes of RightShiftException. */
  datatype RightShiftBase = FromException | FromTransformationException | FromBaseException

  /** `except TransformationException` catches `e`: the recoverable failures. */
  predicate IsTransformationException(e: Exception, base: RightShiftBase)
  {
    e.Transformation? || (e.RightShift? && base == FromTransformationException)
  }

  /** `except Exception` catches `e`. */
  predicate IsException(e: Exception, base: RightShiftBase)
  {
    e.Builtin? || (e.RightShift? && base == FromException)
  }

  /** No exception is both recoverable and an ordinary `Exception`: the two handlers never overlap. */
  lemma HandlersDisjoint(e: Exception, base: RightShiftBase)
    ensures !(IsTransformationException(e, base) && IsException(e, base))
  {
  }
}
