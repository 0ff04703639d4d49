/** The delivery strategies: each charges a flat cost that takes no input, so it does not
    depend on what the order contains. */
module Deliveries {

  const StandardCost: real := 5.0
  const ExpressCost: real := 15.0

  datatype Delivery = StandardDelivery | ExpressDelivery {

    /** `cost()` */
    function Cost(): (c: real)
      ensures c > 0.0
      ensures StandardDelivery? ==> c == StandardCost
      ensures ExpressDelivery? ==> c == ExpressCost
    {
      match this
      case StandardDelivery => StandardCost
      case ExpressDelivery => ExpressCost
    }
  }

  /** Express delivery always costs strictly more than standard delivery. */
  lemma ExpressCostsMore()
    ensures ExpressDelivery.Cost() > StandardDelivery.Cost()
  {
  }
}
