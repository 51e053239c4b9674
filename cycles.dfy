/** Cycle metering, as the bank contract sees it: an action is charged a cost
    that depends on the action and the invocation's cycle price, and the charge
    is refused when the running usage would pass the invocation's limit. */
module Cycles {
  import opened BankTypes

  /** The metered actions the bank performs. */
  datatype CyclesAction = BankRegister

  datatype CyclesError = OutOfCycles

  /** The cycle cost of an action at a given cycle price. The pricing table
      is foreign to this model, so it is a parameter. */
  type CyclesPricing = (CyclesAction, nat) -> nat

  /** Charges `action` at `price` to a running usage `used`. On success the
      result is the new usage; otherwise the usage may not be advanced. */
  function ConsumeCycles(pricing: CyclesPricing, action: CyclesAction, price: nat, used: nat, limit: nat)
    : (r: Result<nat, CyclesError>)
    ensures r.Ok? <==> used + pricing(action, price) <= limit
    ensures r.Ok? ==> r.value == used + pricing(action, price) && r.value <= limit
    ensures r.Err? ==> r.error == OutOfCycles
  {
    var next := used + pricing(action, price);
    if next > limit then Err(OutOfCycles) else Ok(next)
  }
}
