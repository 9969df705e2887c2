/** `TaxStrategyInterface`: a tax rate in percent for a state. The ICMS
    table is the one implementation. */
module TaxStrategy {
  import IcmsTaxStrategy

  datatype TaxStrategy = IcmsTax {

    /** `getRateForState`. */
    function RateForState(state: string): (r: real)
      ensures 17.0 <= r <= 20.0
    {
      match this
      case IcmsTax => IcmsTaxStrategy.GetRateForState(state)
    }
  }
}
