/** Outcomes of contract code: a value, or the error that makes the host roll the transaction back. */
module Results {
  /** What can stop a transaction. A Rust panic and a returned `StdError` have the same effect here. */
  datatype Error =
    | Overflow              // a checked integer operation or conversion left its width
    | ZeroDenominator       // Decimal::from_ratio by zero
    | EmptyValidators       // no validator to delegate to or undelegate from
    | NotDistributed        // "Failed to distribute delegated amount completely"
    | UndelegationTooLarge  // more requested than the validators hold
    | BondedTooSmall        // checked_sub on the bonded total
    | BalanceTooSmall       // checked_sub on the hub balance
    | NothingWithdrawable
    | NoFunds
    | LastValidator
    | ChainRejected         // an emitted message was refused by the chain

  datatype Result<+T> = Success(value: T) | Failure(error: Error) {
    predicate IsFailure() {
      Failure?
    }

    function PropagateFailure<U>(): (r: Result<U>)
      requires Failure?
    {
      Failure(error)
    }

    function Extract(): T
      requires Success?
    {
      value
    }
  }
}
