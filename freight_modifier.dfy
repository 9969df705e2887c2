/** `FreightModifier`: a flat surcharge for heavy products. */
module FreightModifier {
  import opened PriceCalculationDTO

  const HeavyThresholdKg: real := 50.0
  const HeavySurcharge: real := 15.0

  /** `getSurcharge`: 15.0 strictly above 50 kg, 0.0 up to and at 50 kg. */
  function GetSurcharge(dto: Dto): (r: real)
    ensures dto.weightKg > 50.0 ==> r == 15.0
    ensures dto.weightKg <= 50.0 ==> r == 0.0
  {
    if dto.weightKg > HeavyThresholdKg then HeavySurcharge else 0.0
  }

  /** Only 0 and 15 come out, and a heavier product never pays less. */
  lemma RangeAndMonotone(a: Dto, b: Dto)
    ensures GetSurcharge(a) == 0.0 || GetSurcharge(a) == 15.0
    ensures a.weightKg <= b.weightKg ==> GetSurcharge(a) <= GetSurcharge(b)
  {
  }

  /** The surcharge ignores price, quantity, customer, state and margin. */
  lemma OnlyWeightMatters(a: Dto, b: Dto)
    requires a.weightKg == b.weightKg
    ensures GetSurcharge(a) == GetSurcharge(b)
  {
  }

  /** The boundary cases: 0, 49.9 and exactly 50 kg pay nothing; 50.01 and 100 kg pay 15. */
  lemma Boundaries(dto: Dto)
    ensures GetSurcharge(dto.(weightKg := 0.0)) == 0.0
    ensures GetSurcharge(dto.(weightKg := 49.9)) == 0.0
    ensures GetSurcharge(dto.(weightKg := 50.0)) == 0.0
    ensures GetSurcharge(dto.(weightKg := 50.01)) == 15.0
    ensures GetSurcharge(dto.(weightKg := 100.0)) == 15.0
  {
  }
}
