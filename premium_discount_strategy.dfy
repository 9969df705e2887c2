/** `PremiumDiscountStrategy`: a flat extra percentage for premium customers. */
module PremiumDiscountStrategy {
  import opened PriceCalculationDTO

  const PremiumDiscount: real := 2.0

  const Name: string := "premium_discount"

  /** `calculate`: 2% for a premium customer, 0% otherwise. */
  function Calculate(dto: Dto): (r: real)
    ensures dto.isPremium ==> r == 2.0
    ensures !dto.isPremium ==> r == 0.0
  {
    if dto.isPremium then PremiumDiscount else 0.0
  }

  /** The discount depends on the premium flag alone. */
  lemma OnlyPremiumFlagMatters(a: Dto, b: Dto)
    requires a.isPremium == b.isPremium
    ensures Calculate(a) == Calculate(b)
  {
  }
}
