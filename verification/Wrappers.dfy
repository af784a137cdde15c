/** The two result types shared by every module: a possibly absent value, and a value or the error the
    service throws. */
module Wrappers {

  datatype Option<+T> = None | Some(value: T)

  datatype Result<+T, +E> = Success(value: T) | Failure(error: E)

  /** The `AppError`s of the modelled services, one constructor per throw site that matters to a caller. */
  datatype AppError =
    | EmptyCart
    | OutOfStock
    | CouponStale
    | CouponInvalid
    | NegativeTotal
    | UnrecognizedTaxProfile
    | GatewayUnavailable
    | NotFound
    | WrongState
    | ReturnWindowClosed
    | NotPurchased
    | QuantityTooLarge
    | HygienePolicy
    | ProofRequired
    | DuplicateReturn
    | StockLimit
    | SchemaViolation
    | CapacityReached
}
