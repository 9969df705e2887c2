/** `DiscountStrategyInterface`: the closed set of discount rules, each
    giving a percentage for a request and a stable name. */
module DiscountStrategy {
  import opened PriceCalculationDTO
  import QuantityDiscountStrategy
  import CustomerTypeDiscountStrategy
  import PremiumDiscountStrategy

  datatype DiscountStrategy = QuantityDiscount | CustomerTypeDiscount | PremiumDiscount {

    /** `calculate`: the discount in percent (3.0 means 3%). */
    function Percent(dto: Dto): (r: real)
      ensures 0.0 <= r <= 8.0
    {
      match this
      case QuantityDiscount =>
        QuantityDiscountStrategy.RangeAndMonotone(dto, dto);
        QuantityDiscountStrategy.Calculate(dto)
      case CustomerTypeDiscount => CustomerTypeDiscountStrategy.Calculate(dto)
      case PremiumDiscount => PremiumDiscountStrategy.Calculate(dto)
    }

    /** `getName`. */
    function Name(): (n: string)
      ensures n in KnownNames
    {
      match this
      case QuantityDiscount => QuantityDiscountStrategy.Name
      case CustomerTypeDiscount => CustomerTypeDiscountStrategy.Name
      case PremiumDiscount => PremiumDiscountStrategy.Name
    }
  }

  /** The names the calculator reads back into the result's three fields. */
  const KnownNames: set<string> := {"quantity_discount", "customer_type_discount", "premium_discount"}

  /** Different rules have different names. */
  lemma NamesAreDistinct(a: DiscountStrategy, b: DiscountStrategy)
    ensures a.Name() == b.Name() <==> a == b
  {
  }
}
