/** The immutable calculation result (`PriceCalculationResult`) and its
    array form (`toArray`), which is what the cache stores. */
module PriceCalculationResult {
  import opened Wrappers
  import Money

  /** One line of the audit trail. The source renders each as a sentence
      with Brazilian number formatting; here a line keeps the values it
      shows, tagged by the step that wrote it. */
  datatype BreakdownLine =
    | BasePriceLine(basePrice: real)
    | MarginLine(profitMargin: real, priceWithMargin: real)
    | DiscountLine(strategyName: string, percent: real)
    | FreightLine(surcharge: real)
    | TaxLine(state: string, rate: real, amount: real)
    | UnitPriceLine(unitPrice: real)
    | TotalLine(quantity: int, totalPrice: real)

  /** The readonly fields; a value of this type never changes once built. */
  datatype PriceResult = PriceResult(
    basePrice: real,
    priceWithMargin: real,
    quantityDiscount: real,
    customerDiscount: real,
    premiumDiscount: real,
    freightSurcharge: real,
    taxAmount: real,
    taxRate: real,
    unitPrice: real,
    totalPrice: real,
    quantity: int,
    breakdown: seq<BreakdownLine>)

  /** The constructor with its one default: the breakdown is empty. */
  function WithoutBreakdown(basePrice: real, priceWithMargin: real, quantityDiscount: real,
                            customerDiscount: real, premiumDiscount: real, freightSurcharge: real,
                            taxAmount: real, taxRate: real, unitPrice: real, totalPrice: real,
                            quantity: int): (r: PriceResult)
    ensures r.breakdown == []
    ensures r.basePrice == basePrice && r.priceWithMargin == priceWithMargin
    ensures r.quantityDiscount == quantityDiscount && r.customerDiscount == customerDiscount
    ensures r.premiumDiscount == premiumDiscount && r.freightSurcharge == freightSurcharge
    ensures r.taxAmount == taxAmount && r.taxRate == taxRate
    ensures r.unitPrice == unitPrice && r.totalPrice == totalPrice && r.quantity == quantity
  {
    PriceResult(basePrice, priceWithMargin, quantityDiscount, customerDiscount, premiumDiscount,
                freightSurcharge, taxAmount, taxRate, unitPrice, totalPrice, quantity, [])
  }

  /** The nested `discounts` entry of the array form. */
  datatype DiscountsArray = DiscountsArray(quantity: real, customer: real, premium: real)

  /** The nested `tax` entry of the array form. */
  datatype TaxArray = TaxArray(rate: real, amount: real)

  /** The array form, entries in the order `toArray` writes them. The
      `breakdown` key may be absent from an array read back from the cache. */
  datatype ResultArray = ResultArray(
    basePrice: real,
    priceWithMargin: real,
    discounts: DiscountsArray,
    freightSurcharge: real,
    tax: TaxArray,
    unitPrice: real,
    quantity: int,
    totalPrice: real,
    breakdown: Option<seq<BreakdownLine>>)

  /** Rounded to a whole number of cents and off by at most half a cent,
      an exact half going away from zero. */
  predicate RoundedFrom(rounded: real, exact: real) {
    && Money.IsCents(rounded)
    && -0.005 <= rounded - exact <= 0.005
    && (exact >= 0.0 ==> -0.005 < rounded - exact)
    && (exact < 0.0 ==> rounded - exact < 0.005)
  }

  /** Only one amount is rounded from a given exact value, and it is
      `round(exact, 2)`. */
  lemma RoundedFromIsRound2(rounded: real, exact: real)
    ensures RoundedFrom(rounded, exact) <==> rounded == Money.Round2(exact)
  {
    if RoundedFrom(rounded, exact) {
      Money.CentsAreClose(rounded, Money.Round2(exact));
    }
  }

  /** `toArray`: money fields rounded to cents, the tax rate and the
      quantity as they are, the breakdown unchanged and in order. */
  function ToArray(r: PriceResult): (a: ResultArray)
    ensures RoundedFrom(a.basePrice, r.basePrice)
    ensures RoundedFrom(a.priceWithMargin, r.priceWithMargin)
    ensures RoundedFrom(a.discounts.quantity, r.quantityDiscount)
    ensures RoundedFrom(a.discounts.customer, r.customerDiscount)
    ensures RoundedFrom(a.discounts.premium, r.premiumDiscount)
    ensures RoundedFrom(a.freightSurcharge, r.freightSurcharge)
    ensures RoundedFrom(a.tax.amount, r.taxAmount)
    ensures RoundedFrom(a.unitPrice, r.unitPrice)
    ensures RoundedFrom(a.totalPrice, r.totalPrice)
    ensures a.tax.rate == r.taxRate
    ensures a.quantity == r.quantity
    ensures a.breakdown == Some(r.breakdown)
  {
    ResultArray(
      Money.Round2(r.basePrice),
      Money.Round2(r.priceWithMargin),
      DiscountsArray(Money.Round2(r.quantityDiscount), Money.Round2(r.customerDiscount),
                     Money.Round2(r.premiumDiscount)),
      Money.Round2(r.freightSurcharge),
      TaxArray(r.taxRate, Money.Round2(r.taxAmount)),
      Money.Round2(r.unitPrice),
      r.quantity,
      Money.Round2(r.totalPrice),
      Some(r.breakdown))
  }

  /** `r` with every money field replaced by its rounding to cents. */
  function RoundMoney(r: PriceResult): PriceResult {
    r.(basePrice := Money.Round2(r.basePrice),
       priceWithMargin := Money.Round2(r.priceWithMargin),
       quantityDiscount := Money.Round2(r.quantityDiscount),
       customerDiscount := Money.Round2(r.customerDiscount),
       premiumDiscount := Money.Round2(r.premiumDiscount),
       freightSurcharge := Money.Round2(r.freightSurcharge),
       taxAmount := Money.Round2(r.taxAmount),
       unitPrice := Money.Round2(r.unitPrice),
       totalPrice := Money.Round2(r.totalPrice))
  }

  /** Serialising a result whose money is already in cents gives the same
      array as serialising the exact result. */
  lemma ToArrayIgnoresRounding(r: PriceResult)
    ensures ToArray(RoundMoney(r)) == ToArray(r)
  {
    Money.Round2Idempotent(r.basePrice);
    Money.Round2Idempotent(r.priceWithMargin);
    Money.Round2Idempotent(r.quantityDiscount);
    Money.Round2Idempotent(r.customerDiscount);
    Money.Round2Idempotent(r.premiumDiscount);
    Money.Round2Idempotent(r.freightSurcharge);
    Money.Round2Idempotent(r.taxAmount);
    Money.Round2Idempotent(r.unitPrice);
    Money.Round2Idempotent(r.totalPrice);
  }
}
