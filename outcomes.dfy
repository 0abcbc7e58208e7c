/** The point-of-sale core reports its business errors as exceptions; here
    each exception becomes a value of `Failure`, and every operation that can
    throw returns a `Result`. */
module Outcomes {

  /** The error conditions of the core, one per exception it throws. */
  datatype Failure =
    | InvalidQuantity                                // InvalidQuantityException
    | OutOfStock(name: string, available: int)       // OutOfStockException, with the item and its stock
    | InsufficientPayment(required: real)            // InvalidPaymentException: the amount did not cover the total
    | EmptyCart                                      // InvalidPaymentException raised for an empty cart
    | NoSuchRow                                      // a cart row index outside the current order

  datatype Result<+T> = Ok(value: T) | Err(error: Failure)

  /** A field that starts out unset (a null reference in the source). */
  datatype Option<+T> = None | Some(value: T)
}
