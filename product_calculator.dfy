/** `ProductCalculator`: the pricing pipeline (margin, additive discounts,
    freight, tax) and the cache lookup around it. */
module ProductCalculator {
  import opened Wrappers
  import opened PriceCalculationDTO
  import opened PriceCalculationResult
  import opened DiscountStrategy
  import opened TaxStrategy
  import FreightModifier
  import Money
  import opened LaravelCacheAdapter

  // ---------------------------------------------------------------------
  // The computation of `doCalculate`, stated as functions of the request
  // and the list of discount strategies.
  // ---------------------------------------------------------------------

  /** `percent`% of `amount`. */
  function Share(percent: real, amount: real): real {
    percent / 100.0 * amount
  }

  /** `amount` times a whole number of units. */
  function Times(amount: real, units: int): real {
    amount * units as real
  }

  /** Step 1: the base price with the profit margin applied. */
  function PriceWithMargin(dto: Dto): real {
    if dto.profitMargin > 0.0 then dto.basePrice * (1.0 + dto.profitMargin / 100.0) else dto.basePrice
  }

  /** A valid request's margin never lowers its price. */
  lemma MarginNeverLowersPrice(dto: Dto)
    requires Valid(dto)
    ensures PriceWithMargin(dto) >= dto.basePrice > 0.0
  {
  }

  /** The sum of every strategy's percentage, in list order. */
  function TotalPercent(strategies: seq<DiscountStrategy>, dto: Dto): real {
    if strategies == [] then 0.0
    else TotalPercent(strategies[..|strategies| - 1], dto) + strategies[|strategies| - 1].Percent(dto)
  }

  /** Each strategy adds between 0 and 8 percent to the sum. */
  lemma {:induction false} TotalPercentBounds(strategies: seq<DiscountStrategy>, dto: Dto)
    ensures 0.0 <= TotalPercent(strategies, dto) <= 8.0 * |strategies| as real
  {
    if strategies != [] {
      TotalPercentBounds(strategies[..|strategies| - 1], dto);
    }
  }

  /** `$discountAmounts`: each strategy's percentage under its name; a later
      strategy with the same name overwrites an earlier one. */
  function PercentByName(strategies: seq<DiscountStrategy>, dto: Dto): map<string, real> {
    if strategies == [] then map[]
    else
      var last := strategies[|strategies| - 1];
      PercentByName(strategies[..|strategies| - 1], dto)[last.Name() := last.Percent(dto)]
  }

  /** `$discountAmounts[$name] ?? 0.0`. */
  function RecordedPercent(strategies: seq<DiscountStrategy>, dto: Dto, name: string): real {
    var m := PercentByName(strategies, dto);
    if name in m then m[name] else 0.0
  }

  /** The breakdown lines of the discount loop: one per strictly positive
      percentage, in strategy order. */
  function DiscountLines(strategies: seq<DiscountStrategy>, dto: Dto): seq<BreakdownLine> {
    if strategies == [] then []
    else
      var last := strategies[|strategies| - 1];
      DiscountLines(strategies[..|strategies| - 1], dto)
        + (if last.Percent(dto) > 0.0 then [DiscountLine(last.Name(), last.Percent(dto))] else [])
  }

  /** The currency amount of the discount recorded under `name`, taken
      against the margin price (not a progressively discounted one). */
  function CategoryDiscount(strategies: seq<DiscountStrategy>, dto: Dto, name: string): real {
    Share(RecordedPercent(strategies, dto, name), PriceWithMargin(dto))
  }

  function TotalDiscountAmount(strategies: seq<DiscountStrategy>, dto: Dto): real {
    Share(TotalPercent(strategies, dto), PriceWithMargin(dto))
  }

  function PriceAfterDiscounts(strategies: seq<DiscountStrategy>, dto: Dto): real {
    PriceWithMargin(dto) - TotalDiscountAmount(strategies, dto)
  }

  function PriceBeforeTax(strategies: seq<DiscountStrategy>, dto: Dto): real {
    PriceAfterDiscounts(strategies, dto) + FreightModifier.GetSurcharge(dto)
  }

  function TaxAmount(strategies: seq<DiscountStrategy>, tax: TaxStrategy, dto: Dto): real {
    Share(tax.RateForState(dto.state), PriceBeforeTax(strategies, dto))
  }

  function UnitPrice(strategies: seq<DiscountStrategy>, tax: TaxStrategy, dto: Dto): real {
    PriceBeforeTax(strategies, dto) + TaxAmount(strategies, tax, dto)
  }

  function TotalPrice(strategies: seq<DiscountStrategy>, tax: TaxStrategy, dto: Dto): real {
    Times(UnitPrice(strategies, tax, dto), dto.quantity)
  }

  /** The freight line, present only when there is a surcharge. */
  function FreightLines(dto: Dto): seq<BreakdownLine> {
    var surcharge := FreightModifier.GetSurcharge(dto);
    if surcharge > 0.0 then [FreightLine(surcharge)] else []
  }

  /** The audit trail in the order the steps run. */
  function Breakdown(strategies: seq<DiscountStrategy>, tax: TaxStrategy, dto: Dto): seq<BreakdownLine> {
    [BasePriceLine(dto.basePrice)]
      + [MarginLine(dto.profitMargin, PriceWithMargin(dto))]
      + DiscountLines(strategies, dto)
      + FreightLines(dto)
      + [TaxLine(dto.state, tax.RateForState(dto.state), TaxAmount(strategies, tax, dto))]
      + [UnitPriceLine(UnitPrice(strategies, tax, dto))]
      + [TotalLine(dto.quantity, TotalPrice(strategies, tax, dto))]
  }

  /** The result `doCalculate` builds. */
  function Priced(strategies: seq<DiscountStrategy>, tax: TaxStrategy, dto: Dto): PriceResult {
    PriceResult(
      dto.basePrice,
      PriceWithMargin(dto),
      CategoryDiscount(strategies, dto, "quantity_discount"),
      CategoryDiscount(strategies, dto, "customer_type_discount"),
      CategoryDiscount(strategies, dto, "premium_discount"),
      FreightModifier.GetSurcharge(dto),
      TaxAmount(strategies, tax, dto),
      tax.RateForState(dto.state),
      UnitPrice(strategies, tax, dto),
      TotalPrice(strategies, tax, dto),
      dto.quantity,
      Breakdown(strategies, tax, dto))
  }

  /** `resultFromArray`: rebuilds a result from its array form; a missing
      breakdown becomes empty. */
  function ResultFromArray(data: ResultArray): (r: PriceResult)
    ensures data.breakdown.None? ==> r.breakdown == []
    ensures data.breakdown.Some? ==> r.breakdown == data.breakdown.value
  {
    PriceResult(
      data.basePrice,
      data.priceWithMargin,
      data.discounts.quantity,
      data.discounts.customer,
      data.discounts.premium,
      data.freightSurcharge,
      data.tax.amount,
      data.tax.rate,
      data.unitPrice,
      data.totalPrice,
      data.quantity,
      data.breakdown.GetOr([]))
  }

  /** The parameters `calculate` derives the cache key from. */
  function KeyParams(dto: Dto): (p: Params)
    ensures DistinctKeys(p)
  {
    [("base_price", RealParam(dto.basePrice)),
     ("quantity", IntParam(dto.quantity)),
     ("customer_type", StringParam(dto.customerType)),
     ("state", StringParam(dto.state)),
     ("weight_kg", RealParam(dto.weightKg)),
     ("is_premium", BoolParam(dto.isPremium)),
     ("profit_margin", RealParam(dto.profitMargin))]
  }

  /** The same parameters in the order `ksort` leaves them: by name. */
  function SortedKeyParams(dto: Dto): Params {
    [("base_price", RealParam(dto.basePrice)),
     ("customer_type", StringParam(dto.customerType)),
     ("is_premium", BoolParam(dto.isPremium)),
     ("profit_margin", RealParam(dto.profitMargin)),
     ("quantity", IntParam(dto.quantity)),
     ("state", StringParam(dto.state)),
     ("weight_kg", RealParam(dto.weightKg))]
  }

  lemma SortedKeyParamsAreSorted(dto: Dto)
    ensures KeySorted(SortedKeyParams(dto))
  {
  }

  lemma SortedKeyParamsRearrange(dto: Dto)
    ensures multiset(SortedKeyParams(dto)) == multiset(KeyParams(dto))
  {
    var p, q := KeyParams(dto), SortedKeyParams(dto);
    SortedKeyParamsAreSorted(dto);
    SortedKeysAreDistinct(q);
    assert forall x :: x in p <==> x in q;
    SameEntriesRearrange(p, q);
  }

  /** Sorting the request's parameters gives them in name order. */
  lemma KeyParamsSortByName(dto: Dto)
    ensures KSort(KeyParams(dto)) == SortedKeyParams(dto)
  {
    SortedKeyParamsAreSorted(dto);
    SortedKeyParamsRearrange(dto);
    SortedRearrangementIsKSort(KeyParams(dto), SortedKeyParams(dto));
  }

  /** The cache key of a request: the digest of its name-ordered parameters. */
  function CacheKey(dto: Dto, digest: Digest): string {
    digest(SortedKeyParams(dto))
  }

  /** The storage slot of a request's cached result. */
  function SlotFor(dto: Dto, digest: Digest): string {
    Slot(CacheKey(dto, digest))
  }

  /** `$this->cache->buildKey([...])` in `calculate`: the key it builds is
      the request's cache key. */
  method KeyFor(dto: Dto, digest: Digest) returns (key: string)
    ensures key == CacheKey(dto, digest)
  {
    key := BuildKey(KeyParams(dto), digest);
    KeyParamsSortByName(dto);
  }

  // ---------------------------------------------------------------------
  // What the computation promises.
  // ---------------------------------------------------------------------

  /** The margin step: for a non-negative margin the price is scaled by
      (1 + margin/100), which with a zero margin leaves it as it is; so a
      valid request's margin price is at least its (positive) base price. */
  lemma MarginFormula(dto: Dto)
    ensures dto.profitMargin >= 0.0 ==> PriceWithMargin(dto) == dto.basePrice * (1.0 + dto.profitMargin / 100.0)
    ensures dto.profitMargin == 0.0 ==> PriceWithMargin(dto) == dto.basePrice
    ensures Valid(dto) ==> PriceWithMargin(dto) >= dto.basePrice > 0.0
  {
  }

  /** Taking `percent`% off an amount scales it by (1 - percent/100). */
  lemma ShareOff(percent: real, amount: real)
    ensures amount - Share(percent, amount) == amount * (1.0 - percent / 100.0)
  {
  }

  /** Adding `percent`% to an amount scales it by (1 + percent/100). */
  lemma ShareOn(percent: real, amount: real)
    ensures amount + Share(percent, amount) == amount * (1.0 + percent / 100.0)
  {
  }

  /** Discounts are summed, not compounded: the price after discounts is the
      margin price less the summed percentage, applied once. */
  lemma DiscountsApplyOnce(strategies: seq<DiscountStrategy>, dto: Dto)
    ensures PriceAfterDiscounts(strategies, dto)
            == PriceWithMargin(dto) * (1.0 - TotalPercent(strategies, dto) / 100.0)
  {
    ShareOff(TotalPercent(strategies, dto), PriceWithMargin(dto));
  }

  /** Tax is charged on the discounted price plus freight; the total is the
      unit price times the quantity, with no rounding in between. */
  lemma TaxAndTotal(strategies: seq<DiscountStrategy>, tax: TaxStrategy, dto: Dto)
    ensures UnitPrice(strategies, tax, dto)
            == (PriceAfterDiscounts(strategies, dto) + FreightModifier.GetSurcharge(dto))
               * (1.0 + tax.RateForState(dto.state) / 100.0)
    ensures TotalPrice(strategies, tax, dto) == UnitPrice(strategies, tax, dto) * dto.quantity as real
  {
    ShareOn(tax.RateForState(dto.state), PriceBeforeTax(strategies, dto));
  }

  /** The strategy whose percentage is recorded under a name no strategy
      carries is absent from the name map. */
  lemma {:induction false} UnnamedIsUnrecorded(strategies: seq<DiscountStrategy>, dto: Dto, name: string)
    requires forall i | 0 <= i < |strategies| :: strategies[i].Name() != name
    ensures name !in PercentByName(strategies, dto)
  {
    if strategies != [] {
      UnnamedIsUnrecorded(strategies[..|strategies| - 1], dto, name);
    }
  }

  /** No strategy appears twice in the list. */
  predicate NoRepeats(strategies: seq<DiscountStrategy>) {
    forall i, j | 0 <= i < j < |strategies| :: strategies[i] != strategies[j]
  }

  /** With no strategy listed twice, the percentages read back under the
      three known names add up to the summed percentage. */
  lemma {:induction false} RecordedPercentsSumToTotal(strategies: seq<DiscountStrategy>, dto: Dto)
    requires NoRepeats(strategies)
    ensures RecordedPercent(strategies, dto, "quantity_discount")
            + RecordedPercent(strategies, dto, "customer_type_discount")
            + RecordedPercent(strategies, dto, "premium_discount")
            == TotalPercent(strategies, dto)
  {
    if strategies != [] {
      var init := strategies[..|strategies| - 1];
      var last := strategies[|strategies| - 1];
      RecordedPercentsSumToTotal(init, dto);
      forall i | 0 <= i < |init| ensures init[i].Name() != last.Name() {
        NamesAreDistinct(init[i], last);
      }
      UnnamedIsUnrecorded(init, dto, last.Name());
    }
  }

  /** Under the same condition the three per-category amounts add up to the
      total discount amount. */
  lemma CategoryDiscountsSumToTotal(strategies: seq<DiscountStrategy>, dto: Dto)
    requires NoRepeats(strategies)
    ensures CategoryDiscount(strategies, dto, "quantity_discount")
            + CategoryDiscount(strategies, dto, "customer_type_discount")
            + CategoryDiscount(strategies, dto, "premium_discount")
            == TotalDiscountAmount(strategies, dto)
  {
    RecordedPercentsSumToTotal(strategies, dto);
    SharesAdd(RecordedPercent(strategies, dto, "quantity_discount"),
              RecordedPercent(strategies, dto, "customer_type_discount"),
              RecordedPercent(strategies, dto, "premium_discount"),
              PriceWithMargin(dto));
  }

  lemma SharesAdd(a: real, b: real, c: real, amount: real)
    ensures Share(a, amount) + Share(b, amount) + Share(c, amount) == Share(a + b + c, amount)
  {
  }

  /** A name that no strategy carries reads back as 0. */
  lemma AbsentNameReadsZero(strategies: seq<DiscountStrategy>, dto: Dto, name: string)
    requires forall i | 0 <= i < |strategies| :: strategies[i].Name() != name
    ensures RecordedPercent(strategies, dto, name) == 0.0
    ensures CategoryDiscount(strategies, dto, name) == 0.0
  {
    UnnamedIsUnrecorded(strategies, dto, name);
  }

  /** The number of strategies giving a strictly positive percentage. */
  function CountPositive(strategies: seq<DiscountStrategy>, dto: Dto): nat {
    if strategies == [] then 0
    else (if strategies[0].Percent(dto) > 0.0 then 1 else 0) + CountPositive(strategies[1..], dto)
  }

  /** Every discount line is a positive percentage, and there is one per
      strategy that gives one. */
  lemma {:induction false} DiscountLinesArePositive(strategies: seq<DiscountStrategy>, dto: Dto)
    ensures |DiscountLines(strategies, dto)| == CountPositive(strategies, dto)
    ensures forall k | 0 <= k < |DiscountLines(strategies, dto)| ::
              DiscountLines(strategies, dto)[k].DiscountLine? && DiscountLines(strategies, dto)[k].percent > 0.0
  {
    if strategies != [] {
      var init := strategies[..|strategies| - 1];
      DiscountLinesArePositive(init, dto);
      CountPositiveOfAppend(init, strategies[|strategies| - 1], dto);
      assert init + [strategies[|strategies| - 1]] == strategies;
    }
  }

  lemma {:induction false} CountPositiveOfAppend(strategies: seq<DiscountStrategy>, s: DiscountStrategy, dto: Dto)
    ensures CountPositive(strategies + [s], dto)
            == CountPositive(strategies, dto) + (if s.Percent(dto) > 0.0 then 1 else 0)
  {
    if strategies != [] {
      assert (strategies + [s])[1..] == strategies[1..] + [s];
      CountPositiveOfAppend(strategies[1..], s, dto);
    }
  }

  /** The breakdown starts with the base and margin lines, then the discount
      lines, then a freight line exactly when there is a surcharge, and ends
      with the tax, unit and total lines: 5 lines plus one per positive
      discount plus one for freight. */
  lemma BreakdownShape(strategies: seq<DiscountStrategy>, tax: TaxStrategy, dto: Dto)
    ensures var b := Breakdown(strategies, tax, dto);
      && |b| == 5 + CountPositive(strategies, dto) + (if FreightModifier.GetSurcharge(dto) > 0.0 then 1 else 0)
      && b[0] == BasePriceLine(dto.basePrice)
      && b[1] == MarginLine(dto.profitMargin, PriceWithMargin(dto))
      && b[2..2 + CountPositive(strategies, dto)] == DiscountLines(strategies, dto)
      && ((exists k | 0 <= k < |b| :: b[k].FreightLine?) <==> FreightModifier.GetSurcharge(dto) > 0.0)
      && b[|b| - 3] == TaxLine(dto.state, tax.RateForState(dto.state), TaxAmount(strategies, tax, dto))
      && b[|b| - 2] == UnitPriceLine(UnitPrice(strategies, tax, dto))
      && b[|b| - 1] == TotalLine(dto.quantity, TotalPrice(strategies, tax, dto))
  {
    DiscountLinesArePositive(strategies, dto);
    var d, f := DiscountLines(strategies, dto), FreightLines(dto);
    var b := Breakdown(strategies, tax, dto);
    ConcatenationShape(
      BasePriceLine(dto.basePrice), MarginLine(dto.profitMargin, PriceWithMargin(dto)), d, f,
      TaxLine(dto.state, tax.RateForState(dto.state), TaxAmount(strategies, tax, dto)),
      UnitPriceLine(UnitPrice(strategies, tax, dto)),
      TotalLine(dto.quantity, TotalPrice(strategies, tax, dto)));
    if f != [] {
      assert b[2 + |d|].FreightLine?;
    }
  }

  /** Where the parts of the breakdown sit in it. */
  lemma ConcatenationShape<T>(first: T, second: T, middle: seq<T>, optional: seq<T>, x: T, y: T, z: T)
    ensures var b := [first] + [second] + middle + optional + [x] + [y] + [z];
      && |b| == 5 + |middle| + |optional|
      && b[0] == first && b[1] == second
      && b[2..2 + |middle|] == middle
      && b[2 + |middle|..2 + |middle| + |optional|] == optional
      && (forall k | 2 <= k < 2 + |middle| :: b[k] == middle[k - 2])
      && (forall k | 2 + |middle| <= k < 2 + |middle| + |optional| :: b[k] == optional[k - 2 - |middle|])
      && b[|b| - 3] == x && b[|b| - 2] == y && b[|b| - 1] == z
  {
  }

  /** Reading back a serialised result gives the result with its money
      rounded to cents; the tax rate, quantity and breakdown come back as
      they were. Serialising that again gives the same array. */
  lemma CacheRoundTrip(r: PriceResult)
    ensures ResultFromArray(ToArray(r)) == RoundMoney(r)
    ensures ToArray(ResultFromArray(ToArray(r))) == ToArray(r)
  {
    ToArrayIgnoresRounding(r);
  }

  /** An array without a breakdown is read back with an empty one. */
  lemma MissingBreakdownReadsEmpty(r: PriceResult)
    ensures ResultFromArray(ToArray(r).(breakdown := None)) == RoundMoney(r).(breakdown := [])
  {
  }

  /** The cache key of a request does not depend on the order its fields
      are listed in. */
  lemma KeyIgnoresFieldOrder(dto: Dto, p: Params, digest: Digest)
    requires DistinctKeys(p) && multiset(p) == multiset(KeyParams(dto))
    ensures BuildKey(p, digest) == BuildKey(KeyParams(dto), digest)
  {
    BuildKeyIgnoresOrder(p, KeyParams(dto), digest);
  }

  class ProductCalculator {
    const taxStrategy: TaxStrategy
    const cache: LaravelCacheAdapter
    /** The hash `buildKey` applies to the sorted parameters. */
    const digest: Digest
    var discountStrategies: seq<DiscountStrategy>

    constructor (taxStrategy: TaxStrategy, cache: LaravelCacheAdapter, digest: Digest)
      ensures this.taxStrategy == taxStrategy && this.cache == cache && this.digest == digest
      ensures discountStrategies == []
    {
      this.taxStrategy := taxStrategy;
      this.cache := cache;
      this.digest := digest;
      discountStrategies := [];
    }

    /** `addDiscountStrategy`: appends and returns the same calculator. */
    method AddDiscountStrategy(strategy: DiscountStrategy) returns (self: ProductCalculator)
      modifies this
      ensures self == this
      ensures discountStrategies == old(discountStrategies) + [strategy]
    {
      discountStrategies := discountStrategies + [strategy];
      self := this;
    }

    /** The discount loop of `doCalculate`: asks every strategy, in order,
        for its percentage; sums them, records each under the strategy's
        name, and lists the positive ones. */
    method ApplyDiscounts(dto: Dto) returns (totalPercent: real, amounts: map<string, real>, lines: seq<BreakdownLine>)
      ensures totalPercent == TotalPercent(discountStrategies, dto)
      ensures amounts == PercentByName(discountStrategies, dto)
      ensures lines == DiscountLines(discountStrategies, dto)
    {
      totalPercent := 0.0;
      amounts := map[];
      lines := [];
      var strategies := discountStrategies;
      for i := 0 to |strategies|
        invariant totalPercent == TotalPercent(strategies[..i], dto)
        invariant amounts == PercentByName(strategies[..i], dto)
        invariant lines == DiscountLines(strategies[..i], dto)
      {
        assert strategies[..i + 1][..i] == strategies[..i];
        var strategy := strategies[i];
        var percent := strategy.Percent(dto);
        amounts := amounts[strategy.Name() := percent];
        totalPercent := totalPercent + percent;
        if percent > 0.0 {
          lines := lines + [DiscountLine(strategy.Name(), percent)];
        }
      }
      assert strategies[..|strategies|] == strategies;
    }

    /** `doCalculate`: the pipeline, with its running total, name map and
        breakdown built up step by step. */
    method DoCalculate(dto: Dto) returns (r: PriceResult)
      ensures r == Priced(discountStrategies, taxStrategy, dto)
    {
      var breakdown: seq<BreakdownLine> := [];

      var priceWithMargin := dto.basePrice;
      if dto.profitMargin > 0.0 {
        priceWithMargin := dto.basePrice * (1.0 + dto.profitMargin / 100.0);
      }
      breakdown := breakdown + [BasePriceLine(dto.basePrice)];
      breakdown := breakdown + [MarginLine(dto.profitMargin, priceWithMargin)];

      var strategies := discountStrategies;
      var totalDiscountPercent, discountAmounts, discountLines := ApplyDiscounts(dto);
      breakdown := breakdown + discountLines;

      var quantityPercent :=
        if "quantity_discount" in discountAmounts then discountAmounts["quantity_discount"] else 0.0;
      var customerPercent :=
        if "customer_type_discount" in discountAmounts then discountAmounts["customer_type_discount"] else 0.0;
      var premiumPercent :=
        if "premium_discount" in discountAmounts then discountAmounts["premium_discount"] else 0.0;
      var quantityDiscount := Share(quantityPercent, priceWithMargin);
      var customerDiscount := Share(customerPercent, priceWithMargin);
      var premiumDiscount := Share(premiumPercent, priceWithMargin);

      var totalDiscountAmount := Share(totalDiscountPercent, priceWithMargin);
      var priceAfterDiscounts := priceWithMargin - totalDiscountAmount;

      var freightSurcharge := FreightModifier.GetSurcharge(dto);
      if freightSurcharge > 0.0 {
        breakdown := breakdown + [FreightLine(freightSurcharge)];
      }
      assert breakdown == [BasePriceLine(dto.basePrice)] + [MarginLine(dto.profitMargin, priceWithMargin)]
                          + DiscountLines(strategies, dto) + FreightLines(dto);

      var priceBeforeTax := priceAfterDiscounts + freightSurcharge;

      var taxRate := taxStrategy.RateForState(dto.state);
      var taxAmount := Share(taxRate, priceBeforeTax);
      breakdown := breakdown + [TaxLine(dto.state, taxRate, taxAmount)];

      var unitPrice := priceBeforeTax + taxAmount;
      var totalPrice := Times(unitPrice, dto.quantity);

      breakdown := breakdown + [UnitPriceLine(unitPrice)];
      breakdown := breakdown + [TotalLine(dto.quantity, totalPrice)];

      assert priceWithMargin == PriceWithMargin(dto);
      assert quantityPercent == RecordedPercent(strategies, dto, "quantity_discount");
      assert customerPercent == RecordedPercent(strategies, dto, "customer_type_discount");
      assert premiumPercent == RecordedPercent(strategies, dto, "premium_discount");
      assert totalDiscountPercent == TotalPercent(strategies, dto);
      assert totalDiscountAmount == TotalDiscountAmount(strategies, dto);
      assert priceBeforeTax == PriceBeforeTax(strategies, dto);
      assert taxAmount == TaxAmount(strategies, taxStrategy, dto);
      assert unitPrice == UnitPrice(strategies, taxStrategy, dto);
      assert totalPrice == TotalPrice(strategies, taxStrategy, dto);
      assert breakdown == Breakdown(strategies, taxStrategy, dto);
      r := PriceResult(dto.basePrice, priceWithMargin, quantityDiscount, customerDiscount, premiumDiscount,
                       freightSurcharge, taxAmount, taxRate, unitPrice, totalPrice, dto.quantity, breakdown);
    }

    /** The miss path of `calculate`: writes the array form of a freshly
        computed result under the key, for 300 s. */
    method Remember(cacheKey: string, r: PriceResult)
      modifies cache.store
      ensures cache.store.items == old(cache.store.items)[Slot(cacheKey) := StoredItem(ToArray(r), DefaultTtlSeconds)]
      ensures cache.store.ops == old(cache.store.ops) + [Write(Slot(cacheKey), ToArray(r), DefaultTtlSeconds)]
    {
      cache.Set(cacheKey, ToArray(r), 300);
    }

    /** `calculate`: a cached array for the request's key is returned as a
        result without computing or writing anything; otherwise the fresh
        result is written once, as its array, under that key for 300 s. */
    method Calculate(dto: Dto) returns (r: PriceResult)
      modifies cache.store
      ensures var slot := SlotFor(dto, digest);
        old(slot in cache.store.items) ==>
          && r == ResultFromArray(old(cache.store.items[slot].data))
          && cache.store.items == old(cache.store.items)
          && cache.store.ops == old(cache.store.ops) + [Read(slot)]
      ensures var slot := SlotFor(dto, digest);
        old(slot !in cache.store.items) ==>
          && r == Priced(discountStrategies, taxStrategy, dto)
          && cache.store.items == old(cache.store.items)[slot := StoredItem(ToArray(r), DefaultTtlSeconds)]
          && cache.store.ops == old(cache.store.ops) + [Read(slot), Write(slot, ToArray(r), DefaultTtlSeconds)]
    {
      var cacheKey := KeyFor(dto, digest);
      var cached := cache.Get(cacheKey);
      if cached.Some? {
        return ResultFromArray(cached.value);
      }
      r := DoCalculate(dto);
      Remember(cacheKey, r);
    }
  }

  /** Two calls for the same request on an empty slot: the first computes
      and writes, the second is served from the cache, so the store sees two
      reads and one write; the second result is the first with its money
      rounded to cents. */
  method CalculateTwice(calculator: ProductCalculator, dto: Dto) returns (first: PriceResult, second: PriceResult)
    requires SlotFor(dto, calculator.digest) !in calculator.cache.store.items
    modifies calculator.cache.store
    ensures first == Priced(calculator.discountStrategies, calculator.taxStrategy, dto)
    ensures second == RoundMoney(first)
    ensures var slot := SlotFor(dto, calculator.digest);
      calculator.cache.store.ops
      == old(calculator.cache.store.ops) + [Read(slot), Write(slot, ToArray(first), DefaultTtlSeconds), Read(slot)]
  {
    ghost var slot := SlotFor(dto, calculator.digest);
    ghost var ops0 := calculator.cache.store.ops;
    first := calculator.Calculate(dto);
    ghost var ops1 := calculator.cache.store.ops;
    second := calculator.Calculate(dto);
    CacheRoundTrip(first);
    assert calculator.cache.store.ops == ops1 + [Read(slot)];
    assert ops1 == ops0 + [Read(slot), Write(slot, ToArray(first), DefaultTtlSeconds)];
    AppendTwiceMore(ops0, Read(slot), Write(slot, ToArray(first), DefaultTtlSeconds), Read(slot));
  }

  lemma AppendTwiceMore<T>(s: seq<T>, x: T, y: T, z: T)
    ensures s + [x, y] + [z] == s + [x, y, z]
  {
  }
}
