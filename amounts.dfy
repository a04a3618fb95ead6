/** The amount checks of the payment routes. Three rules exist: a minimum in
    cents (create-checkout-session, create-payment-intent), a range in whole
    dollars (subscribe), and none at all (checkout). A missing amount and 0
    are both falsy in the source's `!amount` test. */
module Amounts {
  import opened Common

  /** `!amount || amount < 100`: true when the request is refused. */
  function RejectsCents(amount: Option<int>): (rejected: bool)
    ensures rejected <==> !(amount.Some? && amount.value >= 100)
  {
    amount.None? || amount.value == 0 || amount.value < 100
  }

  /** `!amount || amount < 1 || amount > 100`: true when the request is
      refused. */
  function RejectsDollars(amount: Option<int>): (rejected: bool)
    ensures rejected <==> !(amount.Some? && 1 <= amount.value <= 100)
  {
    amount.None? || amount.value == 0 || amount.value < 1 || amount.value > 100
  }
}
