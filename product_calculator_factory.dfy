/** `ProductCalculatorFactory`: the calculator with the standard rules, and
    what the standard configuration guarantees. */
module ProductCalculatorFactory {
  import opened PriceCalculationDTO
  import opened DiscountStrategy
  import opened TaxStrategy
  import FreightModifier
  import QuantityDiscountStrategy
  import CustomerTypeDiscountStrategy
  import PremiumDiscountStrategy
  import IcmsTaxStrategy
  import opened LaravelCacheAdapter
  import opened ProductCalculator

  /** The discount rules `createDefault` registers, in registration order. */
  const DefaultStrategies: seq<DiscountStrategy> := [QuantityDiscount, CustomerTypeDiscount, PremiumDiscount]

  /** `createDefault`: a new calculator charging ICMS, caching through a new
      adapter over the shared store, with the quantity, customer-type and
      premium discounts in that order. */
  method CreateDefault(store: CacheStore, digest: Digest) returns (calculator: ProductCalculator)
    ensures fresh(calculator) && fresh(calculator.cache)
    ensures calculator.taxStrategy == IcmsTax
    ensures calculator.cache.store == store && calculator.digest == digest
    ensures calculator.discountStrategies == DefaultStrategies
  {
    var cache := new LaravelCacheAdapter(store);
    calculator := new ProductCalculator(IcmsTax, cache, digest);
    var self := calculator.AddDiscountStrategy(QuantityDiscount);
    self := self.AddDiscountStrategy(CustomerTypeDiscount);
    self := self.AddDiscountStrategy(PremiumDiscount);
  }

  /** Each standard rule is registered once. */
  lemma DefaultHasNoRepeats()
    ensures NoRepeats(DefaultStrategies)
  {
  }

  /** With the standard rules the summed percentage is the three rules'
      percentages added, at most 5 + 8 + 2 = 15; each category field holds
      its own rule's share of the margin price, and the three add up to the
      total discount. */
  lemma DefaultDiscounts(dto: Dto)
    ensures TotalPercent(DefaultStrategies, dto)
            == QuantityDiscountStrategy.Calculate(dto) + CustomerTypeDiscountStrategy.Calculate(dto)
               + PremiumDiscountStrategy.Calculate(dto)
    ensures 0.0 <= TotalPercent(DefaultStrategies, dto) <= 15.0
    ensures CategoryDiscount(DefaultStrategies, dto, "quantity_discount")
            == Share(QuantityDiscountStrategy.Calculate(dto), PriceWithMargin(dto))
    ensures CategoryDiscount(DefaultStrategies, dto, "customer_type_discount")
            == Share(CustomerTypeDiscountStrategy.Calculate(dto), PriceWithMargin(dto))
    ensures CategoryDiscount(DefaultStrategies, dto, "premium_discount")
            == Share(PremiumDiscountStrategy.Calculate(dto), PriceWithMargin(dto))
    ensures CategoryDiscount(DefaultStrategies, dto, "quantity_discount")
            + CategoryDiscount(DefaultStrategies, dto, "customer_type_discount")
            + CategoryDiscount(DefaultStrategies, dto, "premium_discount")
            == TotalDiscountAmount(DefaultStrategies, dto)
  {
    var s := DefaultStrategies;
    var q, c, p :=
      QuantityDiscountStrategy.Calculate(dto), CustomerTypeDiscountStrategy.Calculate(dto),
      PremiumDiscountStrategy.Calculate(dto);
    assert s[..2] == [QuantityDiscount, CustomerTypeDiscount];
    assert s[..2][..1] == [QuantityDiscount];
    assert s[..2][..1][..0] == [];
    assert TotalPercent(s[..2][..1], dto) == q;
    assert TotalPercent(s[..2], dto) == q + c;
    assert PercentByName(s[..2][..1], dto) == map["quantity_discount" := q];
    assert PercentByName(s[..2], dto) == map["quantity_discount" := q, "customer_type_discount" := c];
    assert PercentByName(s, dto)
           == map["quantity_discount" := q, "customer_type_discount" := c, "premium_discount" := p];
    QuantityDiscountStrategy.RangeAndMonotone(dto, dto);
    DefaultHasNoRepeats();
    CategoryDiscountsSumToTotal(s, dto);
  }

  /** With the standard rules a valid request keeps at least 85% of its
      margin price after discounts, so that price stays positive. */
  lemma DefaultKeepsPricePositive(dto: Dto)
    requires Valid(dto)
    ensures PriceAfterDiscounts(DefaultStrategies, dto) >= 0.85 * PriceWithMargin(dto)
    ensures PriceAfterDiscounts(DefaultStrategies, dto) > 0.0
  {
    DefaultDiscounts(dto);
    MarginNeverLowersPrice(dto);
    ShareIsMonotone(TotalPercent(DefaultStrategies, dto), 15.0, PriceWithMargin(dto));
  }

  /** A smaller percentage of a non-negative amount is no larger. */
  lemma ShareIsMonotone(percent: real, cap: real, amount: real)
    requires amount >= 0.0 && percent <= cap
    ensures Share(percent, amount) <= Share(cap, amount)
  {
    assert Share(cap, amount) - Share(percent, amount) == (cap - percent) / 100.0 * amount;
  }

  // ---------------------------------------------------------------------
  // Worked examples with the standard rules.
  // ---------------------------------------------------------------------

  /** A retail request of one unit at 100.00, 5 kg, to SP. */
  function RetailSaoPaulo(): Dto {
    Dto(100.0, 1, "varejo", "SP", 5.0, false, 0.0)
  }

  /** No discount, no freight, 18% ICMS: 118.00 a unit and in total. */
  lemma RetailSaoPauloPrice()
    ensures var r := Priced(DefaultStrategies, IcmsTax, RetailSaoPaulo());
      && r.basePrice == 100.0 && r.taxRate == 18.0 && r.taxAmount == 18.0
      && r.unitPrice == 118.0 && r.totalPrice == 118.0 && r.breakdown != []
  {
    var dto := RetailSaoPaulo();
    DefaultDiscounts(dto);
    QuantityDiscountStrategy.Bands(dto);
    IcmsTaxStrategy.TableEntries();
    BreakdownShape(DefaultStrategies, IcmsTax, dto);
  }

  /** Ten units: 3% off gives 97.00, 114.46 a unit, 1144.60 in total. */
  lemma TenUnitsPrice()
    ensures var r := Priced(DefaultStrategies, IcmsTax, RetailSaoPaulo().(quantity := 10));
      && r.priceWithMargin - r.quantityDiscount == 97.0
      && r.quantity == 10 && r.unitPrice == 114.46 && r.totalPrice == 1144.6
  {
    var dto := RetailSaoPaulo().(quantity := 10);
    DefaultDiscounts(dto);
    QuantityDiscountStrategy.Bands(dto);
    IcmsTaxStrategy.TableEntries();
  }

  /** 60 kg: the 15.00 surcharge is taxed with the rest, 135.70 a unit. */
  lemma HeavyProductPrice()
    ensures var r := Priced(DefaultStrategies, IcmsTax, RetailSaoPaulo().(weightKg := 60.0));
      r.freightSurcharge == 15.0 && r.unitPrice == 135.7
  {
    var dto := RetailSaoPaulo().(weightKg := 60.0);
    DefaultDiscounts(dto);
    QuantityDiscountStrategy.Bands(dto);
    IcmsTaxStrategy.TableEntries();
  }

  /** RJ charges 20%: 120.00 a unit. */
  lemma RioDeJaneiroPrice()
    ensures var r := Priced(DefaultStrategies, IcmsTax, RetailSaoPaulo().(state := "RJ"));
      r.taxRate == 20.0 && r.taxAmount == 20.0 && r.unitPrice == 120.0
  {
    IcmsTaxStrategy.TableEntries();
    OneRetailUnit(RetailSaoPaulo().(state := "RJ"), 20.0);
  }

  /** One retail unit at 100.00, light and without margin, pays its state's
      rate on the whole 100.00. */
  lemma OneRetailUnit(dto: Dto, rate: real)
    requires dto.basePrice == 100.0 && dto.quantity == 1 && dto.customerType == "varejo"
    requires !dto.isPremium && dto.weightKg <= 50.0 && dto.profitMargin == 0.0
    requires IcmsTax.RateForState(dto.state) == rate
    ensures var r := Priced(DefaultStrategies, IcmsTax, dto);
      r.taxRate == rate && r.taxAmount == rate && r.unitPrice == 100.0 + rate && r.totalPrice == 100.0 + rate
  {
    DefaultDiscounts(dto);
    QuantityDiscountStrategy.Bands(dto);
    assert TotalPercent(DefaultStrategies, dto) == 0.0;
    assert PriceBeforeTax(DefaultStrategies, dto) == 100.0;
    assert TaxAmount(DefaultStrategies, IcmsTax, dto) == rate;
  }

  /** A premium customer gets 2.00 off 100.00. */
  lemma PremiumPrice()
    ensures Priced(DefaultStrategies, IcmsTax, RetailSaoPaulo().(isPremium := true)).premiumDiscount == 2.0
  {
    DefaultDiscounts(RetailSaoPaulo().(isPremium := true));
  }

  /** A 10% margin raises 100.00 to 110.00. */
  lemma MarginPrice()
    ensures Priced(DefaultStrategies, IcmsTax, RetailSaoPaulo().(profitMargin := 10.0)).priceWithMargin == 110.0
  {
  }

  /** Wholesale, 50 units, premium: 5% + 5% + 2% = 12% off, 88.00 before
      tax, 103.84 a unit and 5192.00 in total. */
  lemma CombinedDiscountsPrice()
    ensures var r := Priced(DefaultStrategies, IcmsTax,
                            RetailSaoPaulo().(quantity := 50, customerType := "atacado", isPremium := true));
      && TotalPercent(DefaultStrategies,
                      RetailSaoPaulo().(quantity := 50, customerType := "atacado", isPremium := true)) == 12.0
      && r.unitPrice == 103.84 && r.totalPrice == 5192.0
  {
    var dto := RetailSaoPaulo().(quantity := 50, customerType := "atacado", isPremium := true);
    DefaultDiscounts(dto);
    QuantityDiscountStrategy.Bands(dto);
    IcmsTaxStrategy.TableEntries();
  }
}
