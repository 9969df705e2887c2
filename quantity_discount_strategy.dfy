/** `QuantityDiscountStrategy`: a percentage from quantity tiers, searched
    from the highest minimum down. */
module QuantityDiscountStrategy {
  import opened PriceCalculationDTO

  datatype Tier = Tier(min: int, discount: real)

  /** The tier table, highest minimum first. */
  const Tiers: seq<Tier> := [Tier(50, 5.0), Tier(10, 3.0), Tier(1, 0.0)]

  const Name: string := "quantity_discount"

  /** The `foreach` over the tiers: the discount of the first tier whose
      minimum the quantity reaches, or 0.0 when none does. */
  function FirstMatch(tiers: seq<Tier>, quantity: int): (r: real)
    ensures r == 0.0 || r in set t | t in tiers :: t.discount
  {
    if tiers == [] then 0.0
    else if quantity >= tiers[0].min then tiers[0].discount
    else FirstMatch(tiers[1..], quantity)
  }

  /** The search returns tier `i` exactly when `i` is the first tier the
      quantity reaches. */
  lemma {:induction false} FirstMatchIsFirstReached(tiers: seq<Tier>, quantity: int, i: nat)
    requires i < |tiers| && quantity >= tiers[i].min
    requires forall j | 0 <= j < i :: quantity < tiers[j].min
    ensures FirstMatch(tiers, quantity) == tiers[i].discount
  {
    if i > 0 {
      FirstMatchIsFirstReached(tiers[1..], quantity, i - 1);
    }
  }

  /** When the quantity reaches no tier the search falls through to 0.0. */
  lemma {:induction false} FirstMatchFallsThrough(tiers: seq<Tier>, quantity: int)
    requires forall j | 0 <= j < |tiers| :: quantity < tiers[j].min
    ensures FirstMatch(tiers, quantity) == 0.0
  {
    if tiers != [] {
      FirstMatchFallsThrough(tiers[1..], quantity);
    }
  }

  /** `calculate`: one of the tiers' discounts, or 0.0. */
  function Calculate(dto: Dto): (r: real)
    ensures r == 0.0 || r == 3.0 || r == 5.0
  {
    FirstMatch(Tiers, dto.quantity)
  }

  /** The `foreach` of `calculate` as written: walks the tiers and returns
      at the first whose minimum the quantity reaches. */
  method ScanTiers(dto: Dto) returns (r: real)
    ensures r == Calculate(dto)
  {
    var tiers := Tiers;
    for i := 0 to |tiers|
      invariant forall j | 0 <= j < i :: dto.quantity < tiers[j].min
    {
      if dto.quantity >= tiers[i].min {
        FirstMatchIsFirstReached(tiers, dto.quantity, i);
        return tiers[i].discount;
      }
    }
    FirstMatchFallsThrough(tiers, dto.quantity);
    return 0.0;
  }

  /** The three bands, boundaries inclusive at each tier's minimum; below
      the lowest tier (quantity under 1) the result is also 0.0. */
  lemma Bands(dto: Dto)
    ensures dto.quantity >= 50 ==> Calculate(dto) == 5.0
    ensures 10 <= dto.quantity < 50 ==> Calculate(dto) == 3.0
    ensures dto.quantity < 10 ==> Calculate(dto) == 0.0
  {
    if dto.quantity >= 50 {
      FirstMatchIsFirstReached(Tiers, dto.quantity, 0);
    } else if dto.quantity >= 10 {
      FirstMatchIsFirstReached(Tiers, dto.quantity, 1);
    } else if dto.quantity >= 1 {
      FirstMatchIsFirstReached(Tiers, dto.quantity, 2);
    } else {
      FirstMatchFallsThrough(Tiers, dto.quantity);
    }
  }

  /** Only 0, 3 and 5 percent come out, and more units never earn less. */
  lemma RangeAndMonotone(a: Dto, b: Dto)
    ensures Calculate(a) in {0.0, 3.0, 5.0}
    ensures a.quantity <= b.quantity ==> Calculate(a) <= Calculate(b)
  {
    Bands(a);
    Bands(b);
  }

  /** The discount depends on the quantity alone. */
  lemma OnlyQuantityMatters(a: Dto, b: Dto)
    requires a.quantity == b.quantity
    ensures Calculate(a) == Calculate(b)
  {
  }
}
