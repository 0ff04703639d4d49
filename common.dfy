/** Values shared by every module: optional values, the failure-or-value result of an
    operation that may raise, and the kinds of `ValueError` the system raises. */
module Common {

  datatype Option<+T> = None | Some(value: T)

  /** The result of an operation that returns a value or raises `ValueError`. */
  datatype Result<+T> = Ok(value: T) | Err(error: Error)

  /** The result of an operation that returns nothing or raises `ValueError`. */
  datatype Outcome = Pass | Fail(error: Error)

  /** Each `ValueError` the system raises, carrying the values its message names. */
  datatype Error =
    | NegativePrice                                   // "Price cannot be negative"
    | NonPositiveQuantity                             // "Quantity must be positive"
    | NonPositiveOrderId                              // "Order ID must be positive"
    | PaymentNotSet                                   // "Payment method not set"
    | InsufficientStock(available: int, requested: int)
    | ProductNotFound(productId: int)                 // "Product with id N not found"
    | ProductNotInCart(productId: int)                // "Product with id N not in cart"
    | InvalidQuantity(quantity: int, productId: int)  // "Invalid quantity Q for product N"
    | EmptyOrder                                      // "Order must contain at least one item"
    | CustomerNotFound(customerId: int)
    | CustomerExists(customerId: int)                 // "Customer with id N already exists"
    | EmailExists(email: string)                      // "Customer with email E already exists"
    | EmailInUse(email: string)                       // "Email E is already in use"
    | OrderNotFound(orderId: Option<int>)             // the id may be `None` in the message

  /** No element occurs twice. */
  ghost predicate NoDuplicates<T>(s: seq<T>) {
    forall i, j | 0 <= i < j < |s| :: s[i] != s[j]
  }

  /** A sequence without duplicates has as many distinct elements as positions. */
  lemma {:induction false} NoDuplicatesCardinality<T>(s: seq<T>)
    requires NoDuplicates(s)
    ensures |set x | x in s| == |s|
  {
    if s != [] {
      var init := s[..|s| - 1];
      NoDuplicatesCardinality(init);
      assert (set x | x in s) == (set x | x in init) + {s[|s| - 1]};
      assert s[|s| - 1] !in init by {
        forall k | 0 <= k < |init| ensures init[k] != s[|s| - 1] {
          assert init[k] == s[k];
        }
      }
    }
  }
}
