/** The payment methods, kept as opaque tagged values: paying only writes a confirmation
    line, so what this model records of a payment is which method was charged how much. */
module Payments {

  datatype Payment = CreditCardPayment(cardNumber: string) | BankTransferPayment | PayPalPayment(email: string)

  /** A call `payment.pay(amount)`. */
  datatype Charge = Charge(payment: Payment, amount: real)
}
