/** Outcomes of the service calls: a value, or the exception that rolled the transaction back. */
module Results {
  datatype Option<+T> = None | Some(value: T)

  datatype Error =
    | NonPositiveQuantity
    | ZeroDelta
    | NegativeStock
    | InsufficientStock
    | OnlyReserved
    | NotFound
    | Unavailable
    | BadStatus
    | EmptyOrder
    | CheckoutRejected

  datatype Result<+T> = Ok(value: T) | Err(error: Error) {
    predicate IsFailure() {
      Err?
    }

    function PropagateFailure<U>(): Result<U>
      requires Err?
    {
      Err(error)
    }

    function Extract(): T
      requires Ok?
    {
      value
    }
  }
}
