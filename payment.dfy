/** `Order` and its payment strategy (the strategy pattern of Project/Program.cs).
    The two strategies differ only in the label they print, so a strategy is a tag. */
module Payment {

  datatype PaymentStrategy = CreditCard | PayPal

  datatype Option<T> = None | Some(value: T)

  /** What `ProcessPayment` does: ask for a payment method, or pay with the chosen one. */
  datatype PaymentOutcome = NoMethodSelected | Paid(via: PaymentStrategy, amount: real)

  class Order {
    /** The active strategy; `None` stands for the source's null. */
    var paymentStrategy: Option<PaymentStrategy>

    constructor ()
      ensures paymentStrategy == None
    {
      paymentStrategy := None;
    }

    method SetPaymentStrategy(strategy: PaymentStrategy)
      modifies this
      ensures paymentStrategy == Some(strategy)
    {
      paymentStrategy := Some(strategy);
    }

    /** Without a strategy nothing is paid (the soft failure); otherwise the chosen
        strategy pays exactly `amount`. */
    method ProcessPayment(amount: real) returns (outcome: PaymentOutcome)
      ensures outcome == NoMethodSelected <==> paymentStrategy == None
      ensures outcome.Paid? ==> outcome.via == paymentStrategy.value && outcome.amount == amount
    {
      if paymentStrategy == None {
        return NoMethodSelected;
      }
      outcome := Paid(paymentStrategy.value, amount);
    }
  }

  /** The payment step of the menu's "finalize" choice: a new order, then "1" pays by
      credit card and "2" by PayPal; any other answer prints an error and pays nothing
      (`ProcessPayment` is not called, so the result is `None`). */
  method PayByChoice(choice: string, amount: real) returns (outcome: Option<PaymentOutcome>)
    ensures choice == "1" ==> outcome == Some(Paid(CreditCard, amount))
    ensures choice == "2" ==> outcome == Some(Paid(PayPal, amount))
    ensures choice != "1" && choice != "2" ==> outcome == None
  {
    var order := new Order();
    if choice == "1" {
      order.SetPaymentStrategy(CreditCard);
      var paid := order.ProcessPayment(amount);
      outcome := Some(paid);
    } else if choice == "2" {
      order.SetPaymentStrategy(PayPal);
      var paid := order.ProcessPayment(amount);
      outcome := Some(paid);
    } else {
      outcome := None;
    }
  }
}
