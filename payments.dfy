/** The simulated payment (`PaymentMethod`, `Payment` in app/app.py). */
module Payments {

  datatype PaymentMethod = CreditCard | DebitCard | Upi | NetBanking | PayPal

  datatype PaymentStatus = Pending | Completed

  class Payment {
    const amount: int
    const paymentMethod: PaymentMethod
    var status: PaymentStatus

    /** A new payment is pending; the creation timestamp is not modelled. */
    constructor (amount: int, paymentMethod: PaymentMethod)
      ensures this.amount == amount && this.paymentMethod == paymentMethod
      ensures status == Pending
    {
      this.amount := amount;
      this.paymentMethod := paymentMethod;
      status := Pending;
    }

    /** Processing always succeeds and completes the payment. */
    method Process() returns (ok: bool)
      modifies this
      ensures ok && status == Completed
    {
      status := Completed;
      return true;
    }
  }
}
