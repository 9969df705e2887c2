/** `CustomerTypeDiscountStrategy`: a percentage looked up by customer type. */
module CustomerTypeDiscountStrategy {
  import opened PriceCalculationDTO

  /** Retail (varejo) 0%, wholesale (atacado) 5%, reseller (revendedor) 8%. */
  const DiscountTable: map<string, real> := map["varejo" := 0.0, "atacado" := 5.0, "revendedor" := 8.0]

  const Name: string := "customer_type_discount"

  /** `calculate`: the table entry, or 0.0 for a type the table lacks. */
  function Calculate(dto: Dto): (r: real)
    ensures dto.customerType == "varejo" ==> r == 0.0
    ensures dto.customerType == "atacado" ==> r == 5.0
    ensures dto.customerType == "revendedor" ==> r == 8.0
    ensures dto.customerType !in AllowedCustomerTypes ==> r == 0.0
    ensures r == 0.0 || r == 5.0 || r == 8.0
  {
    if dto.customerType in DiscountTable then DiscountTable[dto.customerType] else 0.0
  }

  /** The discount depends on the customer type alone. */
  lemma OnlyCustomerTypeMatters(a: Dto, b: Dto)
    requires a.customerType == b.customerType
    ensures Calculate(a) == Calculate(b)
  {
  }
}
