/**
 * Failure-compatible wrappers and the error taxonomy shared by the whole model.
 * Java `null` is modelled as `None`; a thrown exception as `Failure`/`Fail`.
 */
module Base {

  datatype Option<+T> = None | Some(value: T)

  datatype Result<+T, +E> = Success(value: T) | Failure(error: E) {
    predicate IsFailure() {
      Failure?
    }

    function PropagateFailure<U>(): Result<U, E>
      requires Failure?
    {
      Failure(error)
    }

    function Extract(): T
      requires Success?
    {
      value
    }
  }

  /** The outcome of a check that returns nothing on success (a `void` method that may throw). */
  datatype Outcome = Pass | Fail(error: Error)

  /**
   * The exceptions the core raises, by kind and error code. Messages are not modelled.
   */
  datatype Error =
    | TenantAccessDenied                          // TenantAccessDeniedException, TENANT_ACCESS_DENIED
    | InvalidArgument                             // IllegalArgumentException
    | Unauthorized                                // UnauthorizedException, UNAUTHORIZED
    | LimitExceeded(allowed: int, current: int)   // LimitExceededException, LIMIT_EXCEEDED
    | ResourceNotFound(resource: string)          // ResourceNotFoundException, RESOURCE_NOT_FOUND
    | BusinessRule(code: string)                  // BusinessException with its code
    | ProductNotFound                             // plain RuntimeException "Product not found"
    | EmailAlreadyInUse                           // plain RuntimeException "Email address already in use."
    | IncorrectResultSize                         // a single-row query that matched several rows
    | NullPointer                                 // NullPointerException
    | ClassCast                                   // ClassCastException
    | JwtRejected                                 // a JwtException no handler catches
}
