# Pricing pipeline — a Dafny model

This project models the core of a Laravel pricing service. The service computes
a product's unit and total price from a request: base price, quantity, customer
type, Brazilian state, weight, premium flag and profit margin. The modelled core
has these parts:

- **`PriceCalculationDTO`** — the validated, immutable request. It is built
  either by the validating constructor or by `fromArray`, which checks that the
  required keys are present, uppercases the state and defaults the optional
  fields.
- **Discount rules** — three rules each return a percentage:
  - `QuantityDiscountStrategy` uses tiers at 50 and 10 units.
  - `CustomerTypeDiscountStrategy` uses a table lookup.
  - `PremiumDiscountStrategy` gives a flat 2%.
- **`FreightModifier`** — a flat 15.00 surcharge above 50 kg.
- **`IcmsTaxStrategy`** — the state's ICMS rate, with an 18% default.
- **`ProductCalculator`** — the pipeline itself:
  - It applies the margin, then sums the discount percentages and applies them
    once (not compounded).
  - It adds the freight surcharge, then charges tax on the discounted price plus
    freight.
  - It multiplies the unit price by the quantity.
  - It records an audit trail (the breakdown).
  - The whole computation is wrapped in a cache lookup keyed on the request's
    parameters, sorted by name.
- **`PriceCalculationResult`** — the immutable result and its array form
  (`toArray`, with money rounded to cents), which is what the cache stores.
  `resultFromArray` reads it back.
- **`LaravelCacheAdapter`** — prefixed `get`/`set`/`forget` on Laravel's cache
  store, and `buildKey` (`ksort`, then hash).
- **`ProductCalculatorFactory`** — builds the calculator with the standard
  rules.

Money is exact `real` arithmetic. PHP's `round($x, 2)` (half away from zero) is
`Money.Round2`. Pure code is written as functions with lemmas:

- the rules, validation, `fromArray`, `toArray`, `resultFromArray` and `buildKey`.

Code that changes state is written as classes and methods:

- the calculator's strategy list, its `foreach` loops, and the cache store.

Each method is proved against the functions:

- `DoCalculate` returns exactly `Priced(...)`.
- `ApplyDiscounts` returns exactly `TotalPercent`, `PercentByName` and
  `DiscountLines`.
- `Calculate`'s cache hit and cache miss are stated on the store's contents and
  on its trace of calls.

Three behaviours of the code are easy to miss, and the model keeps them as
written:

- **A cache hit returns rounded money.** `toArray` rounds every money field to
  cents (app/DTOs/PriceCalculationResult.php:27-41). On a hit, `calculate`
  returns `resultFromArray` of the stored array
  (app/Services/Pricing/ProductCalculator.php:44-47). So the second call for a
  request returns the first result with its money rounded to cents, not the
  exact result. `CacheRoundTrip` and `CalculateTwice` state this.
- **The state is never validated.** `validate` checks only the price, quantity,
  customer type, weight and margin (app/DTOs/PriceCalculationDTO.php:23-47).
  Any state string is accepted, the empty one included
  (`StateIsNeverValidated`).
- **The strategy list can grow at any time.** `addDiscountStrategy` appends to
  the calculator's field whenever it is called
  (app/Services/Pricing/ProductCalculator.php:26-30). The model keeps the list
  as a mutable field of the calculator class.

## Model

| member | source | states |
|---|---|---|
| Money.Round2 | app/DTOs/PriceCalculationResult.php:27-41 | `round(x, 2)` gives a whole number of cents, keeps the sign, and is within half a cent of `x`; an exact half cent goes away from zero (strictly less than half a cent below a non-negative `x`, strictly less than half a cent above a negative one) |
| Money.CentsAreFixedPoints | app/DTOs/PriceCalculationResult.php:27-41 | an amount already in whole cents is unchanged by rounding |
| Money.CentsAreClose | app/DTOs/PriceCalculationResult.php:27-41 | (helper) two whole numbers of cents less than a cent apart are equal |
| Money.Round2Idempotent | app/DTOs/PriceCalculationResult.php:27-41 | rounding twice is the same as rounding once |
| Ascii.ToUpper | app/DTOs/PriceCalculationDTO.php:63 | `strtoupper` keeps the length and maps each character independently: a–z to A–Z, everything else unchanged |
| Ascii.ToUpperIdempotent | app/Services/Pricing/Strategies/IcmsTaxStrategy.php:48 | uppercasing an already uppercased string changes nothing |
| Ascii.ToUpperKeepsUpper | app/Services/Pricing/Strategies/IcmsTaxStrategy.php:48 | a string with no lower-case ASCII letter is its own uppercase form |
| PriceCalculationDTO.Valid | app/DTOs/PriceCalculationDTO.php:23-47 | what every constructed request satisfies: the conjunction of `validate`'s five guards, with no condition on the state |
| PriceCalculationDTO.Validate | app/DTOs/PriceCalculationDTO.php:23-47 | no error exactly when the request is valid; otherwise the first failing guard in source order (price > 0, quantity > 0, known customer type, weight ≥ 0, margin ≥ 0) is reported |
| PriceCalculationDTO.New | app/DTOs/PriceCalculationDTO.php:11-21 | the constructor succeeds exactly on valid fields and keeps every argument unchanged; it never reports a missing field |
| PriceCalculationDTO.FirstMissingField | app/DTOs/PriceCalculationDTO.php:51-57 | the first absent required key, in the order base_price, quantity, customer_type, state, weight_kg: the named key is absent and every key before it is present; none exactly when all five are present |
| PriceCalculationDTO.CheckRequired | app/DTOs/PriceCalculationDTO.php:51-57 | the `foreach` over the required keys stops at the first absent key, in the order `FirstMissingField` checks them |
| PriceCalculationDTO.FromArray | app/DTOs/PriceCalculationDTO.php:49-68 | a missing required key is reported before any value check; with every required key present it succeeds exactly when the request built from the array (state uppercased, `is_premium` defaulting to false, `profit_margin` to 0) is valid, and otherwise reports `validate`'s first failing check; a success is that request |
| PriceCalculationDTO.StateUppercasedOnlyByFromArray | tests/Unit/Pricing/Pricing/PriceCalculationDTOTest.php:31-42 | `fromArray` turns `sp` into `SP`; the constructor keeps `sp` as given |
| PriceCalculationDTO.OptionalFieldsDefault | tests/Unit/Pricing/Pricing/PriceCalculationDTOTest.php:96-108 | without `is_premium` and `profit_margin` the request is non-premium with a zero margin |
| PriceCalculationDTO.StateIsNeverValidated | app/DTOs/PriceCalculationDTO.php:23-47 | validation does not depend on the state; the empty state is accepted |
| PriceCalculationDTO.ZeroPriceAndQuantityRejected | tests/Unit/Pricing/Pricing/PriceCalculationDTOTest.php:44-81 | zero price, zero quantity and an unknown customer type are rejected; the earliest failing check is the one reported |
| PriceCalculationResult.WithoutBreakdown | app/DTOs/PriceCalculationResult.php:9-22 | the constructor keeps each of its eleven arguments in its field, and the breakdown defaults to empty |
| PriceCalculationResult.ToArray | app/DTOs/PriceCalculationResult.php:24-44 | every money field is its exact value rounded by `round(x, 2)` (see `RoundedFromIsRound2`); the tax rate and quantity are copied unchanged; the breakdown is kept in order |
| PriceCalculationResult.RoundedFromIsRound2 | app/DTOs/PriceCalculationResult.php:27-41 | an amount meets `ToArray`'s rounding clause for an exact value exactly when it is `round(exact, 2)`, so that clause fixes each stored money field |
| PriceCalculationResult.ToArrayIgnoresRounding | app/DTOs/PriceCalculationResult.php:24-44 | serialising a result already rounded to cents gives the same array as serialising the exact result |
| QuantityDiscountStrategy.FirstMatch | app/Services/Pricing/Strategies/QuantityDiscountStrategy.php:26-32 | the search over the tiers returns 0 or the discount of one of the tiers |
| QuantityDiscountStrategy.Calculate | app/Services/Pricing/Strategies/QuantityDiscountStrategy.php:18-33 | `calculate` returns 0, 3 or 5 percent |
| QuantityDiscountStrategy.FirstMatchIsFirstReached | app/Services/Pricing/Strategies/QuantityDiscountStrategy.php:26-30 | the search returns the discount of the first tier whose minimum the quantity reaches |
| QuantityDiscountStrategy.FirstMatchFallsThrough | app/Services/Pricing/Strategies/QuantityDiscountStrategy.php:26-32 | when no tier is reached the result is 0 |
| QuantityDiscountStrategy.ScanTiers | app/Services/Pricing/Strategies/QuantityDiscountStrategy.php:24-33 | the `foreach` with early return computes the tier function |
| QuantityDiscountStrategy.Bands | app/Services/Pricing/Strategies/QuantityDiscountStrategy.php:18-33 | 50 or more units gives 5%, 10 to 49 gives 3%, fewer than 10 gives 0%; boundaries are inclusive |
| QuantityDiscountStrategy.RangeAndMonotone | app/Services/Pricing/Strategies/QuantityDiscountStrategy.php:18-33 | only 0, 3 or 5 percent is returned, and more units never earn a smaller discount |
| QuantityDiscountStrategy.OnlyQuantityMatters | app/Services/Pricing/Strategies/QuantityDiscountStrategy.php:24-33 | the discount depends on the quantity alone |
| CustomerTypeDiscountStrategy.Calculate | app/Services/Pricing/Strategies/CustomerTypeDiscountStrategy.php:16-25 | varejo 0%, atacado 5%, revendedor 8%; any other type falls back to 0% |
| CustomerTypeDiscountStrategy.OnlyCustomerTypeMatters | app/Services/Pricing/Strategies/CustomerTypeDiscountStrategy.php:22-25 | the discount depends on the customer type alone |
| PremiumDiscountStrategy.Calculate | app/Services/Pricing/Strategies/PremiumDiscountStrategy.php:14-19 | 2% for a premium customer, otherwise 0% |
| PremiumDiscountStrategy.OnlyPremiumFlagMatters | app/Services/Pricing/Strategies/PremiumDiscountStrategy.php:16-19 | the discount depends on the premium flag alone |
| FreightModifier.GetSurcharge | app/Services/Pricing/Modifiers/FreightModifier.php:15-25 | 15.00 strictly above 50 kg, otherwise 0 |
| FreightModifier.RangeAndMonotone | app/Services/Pricing/Modifiers/FreightModifier.php:18-25 | the surcharge is 0 or 15, and a heavier product never pays less |
| FreightModifier.OnlyWeightMatters | app/Services/Pricing/Modifiers/FreightModifier.php:18-25 | the surcharge depends on the weight alone |
| FreightModifier.Boundaries | tests/Unit/Pricing/Pricing/FreightModifierTest.php:20-46 | 0, 49.9 and exactly 50 kg pay nothing; 50.01 and 100 kg pay 15 |
| IcmsTaxStrategy.GetRateForState | app/Services/Pricing/Strategies/IcmsTaxStrategy.php:13-50 | the rate is always between 17 and 20; a code not in the table, after uppercasing, gets the 18% default |
| IcmsTaxStrategy.IgnoresCase | app/Services/Pricing/Strategies/IcmsTaxStrategy.php:46-50 | a state and its uppercase form get the same rate |
| IcmsTaxStrategy.RateOfCode | app/Services/Pricing/Strategies/IcmsTaxStrategy.php:46-50 | an uppercase two-letter code gets its table entry, or the default when it has none |
| IcmsTaxStrategy.TableEntries | app/Services/Pricing/Strategies/IcmsTaxStrategy.php:14-18 | SP 18, RJ 20, RS 17, PR 17.5 |
| IcmsTaxStrategy.LowerCaseCodes | tests/Unit/Pricing/Pricing/IcmsTaxStrategyTest.php:29-33 | `sp` and `rj` get the rates of `SP` and `RJ` |
| IcmsTaxStrategy.UnknownStateGetsDefault | tests/Unit/Pricing/Pricing/IcmsTaxStrategyTest.php:35-40 | `XX` and the empty string get 18% |
| IcmsTaxStrategy.TableKeys | app/Services/Pricing/Strategies/IcmsTaxStrategy.php:13-41 | every code in the table is a pair of uppercase letters, so uppercased input can match it |
| DiscountStrategy.DiscountStrategy.Percent | app/Services/Pricing/Strategies/DiscountStrategyInterface.php:13-21 | every rule returns a percentage between 0 and 8 |
| DiscountStrategy.DiscountStrategy.Name | app/Services/Pricing/Strategies/DiscountStrategyInterface.php:20 | every rule's name is one of the three names the calculator reads back |
| DiscountStrategy.NamesAreDistinct | app/Services/Pricing/Strategies/QuantityDiscountStrategy.php:35-38 | two rules have the same name exactly when they are the same rule |
| TaxStrategy.TaxStrategy.RateForState | app/Services/Pricing/Strategies/TaxStrategyInterface.php:12 | the tax rate is between 17 and 20 percent |
| LaravelCacheAdapter.Below | app/Services/Pricing/Cache/LaravelCacheAdapter.php:44 | (helper) `ksort`'s order for non-numeric string keys: character by character, a proper prefix first |
| LaravelCacheAdapter.BelowAsymmetric | app/Services/Pricing/Cache/LaravelCacheAdapter.php:44 | `ksort`'s string order is asymmetric |
| LaravelCacheAdapter.BelowTransitive | app/Services/Pricing/Cache/LaravelCacheAdapter.php:44 | `ksort`'s string order is transitive |
| LaravelCacheAdapter.BelowTotal | app/Services/Pricing/Cache/LaravelCacheAdapter.php:44 | `ksort`'s string order is total on distinct strings |
| LaravelCacheAdapter.BelowIrreflexive | app/Services/Pricing/Cache/LaravelCacheAdapter.php:44 | `ksort`'s string order is irreflexive |
| LaravelCacheAdapter.Insert | app/Services/Pricing/Cache/LaravelCacheAdapter.php:44 | inserting into a key-sorted array keeps it sorted and adds exactly the new entry |
| LaravelCacheAdapter.KSort | app/Services/Pricing/Cache/LaravelCacheAdapter.php:44 | `ksort` returns the same entries (a permutation) in strictly increasing key order |
| LaravelCacheAdapter.SortedIsUnique | app/Services/Pricing/Cache/LaravelCacheAdapter.php:44 | two key-sorted arrays with the same entries are equal |
| LaravelCacheAdapter.SortedKeysAreDistinct | app/Services/Pricing/Cache/LaravelCacheAdapter.php:44 | a key-sorted array never repeats a key |
| LaravelCacheAdapter.EntriesOccurOnce | app/Services/Pricing/Cache/LaravelCacheAdapter.php:44 | with distinct keys, each entry occurs at most once |
| LaravelCacheAdapter.SameEntriesRearrange | app/Services/Pricing/Cache/LaravelCacheAdapter.php:44 | two distinct-key arrays with the same entries are permutations of each other |
| LaravelCacheAdapter.SortedRearrangementIsKSort | app/Services/Pricing/Cache/LaravelCacheAdapter.php:44 | any key-sorted permutation of an array is exactly what `ksort` produces |
| LaravelCacheAdapter.KSortIsTheSortedRearrangement | app/Services/Pricing/Cache/LaravelCacheAdapter.php:44 | `ksort` has exactly one possible outcome: the key-sorted rearrangement of its input |
| LaravelCacheAdapter.BuildKey | app/Services/Pricing/Cache/LaravelCacheAdapter.php:42-46 | for non-numeric string keys (such as the calculator's seven names), the key is the digest of the parameters rearranged in key order, whatever order they came in |
| LaravelCacheAdapter.BuildKeyIgnoresOrder | app/Services/Pricing/Cache/LaravelCacheAdapter.php:42-46 | the key does not depend on the order the parameters were inserted in |
| LaravelCacheAdapter.Slot | app/Services/Pricing/Cache/LaravelCacheAdapter.php:15-35 | the storage slot is `price_calc_` followed by the key |
| LaravelCacheAdapter.LaravelCacheAdapter.Get | app/Services/Pricing/Cache/LaravelCacheAdapter.php:17-26 | returns the array stored in the prefixed slot, or null; the contents are unchanged and one read is recorded |
| LaravelCacheAdapter.LaravelCacheAdapter.Set | app/Services/Pricing/Cache/LaravelCacheAdapter.php:28-31 | replaces the prefixed slot with the data and TTL (300 s by default); the other slots are unchanged and one write is recorded |
| LaravelCacheAdapter.LaravelCacheAdapter.Forget | app/Services/Pricing/Cache/LaravelCacheAdapter.php:33-36 | removes only the prefixed slot and records one removal |
| ProductCalculator.Share | app/Services/Pricing/ProductCalculator.php:82-86 | (helper) `percent / 100 * amount`, the form every percentage takes in `doCalculate` |
| ProductCalculator.Times | app/Services/Pricing/ProductCalculator.php:104 | (helper) an amount times a whole number of units |
| ProductCalculator.PriceWithMargin | app/Services/Pricing/ProductCalculator.php:61-64 | step 1: the base price, scaled by (1 + margin/100) only when the margin is positive; its properties are `MarginFormula` and `MarginNeverLowersPrice` |
| ProductCalculator.TotalPercent | app/Services/Pricing/ProductCalculator.php:70-80 | the sum of every strategy's percentage, in list order |
| ProductCalculator.TotalPercentBounds | app/Services/Pricing/ProductCalculator.php:70-80 | the summed percentage lies between 0 and 8 per strategy |
| ProductCalculator.PercentByName | app/Services/Pricing/ProductCalculator.php:71-75 | `$discountAmounts`: each strategy's percentage under its name, a later strategy overwriting an earlier one with the same name |
| ProductCalculator.RecordedPercent | app/Services/Pricing/ProductCalculator.php:82-84 | the percentage recorded under a name, or 0 (`?? 0.0`) |
| ProductCalculator.DiscountLines | app/Services/Pricing/ProductCalculator.php:77-79 | one breakdown line per strictly positive percentage, in strategy order; its properties are `DiscountLinesArePositive` |
| ProductCalculator.CategoryDiscount | app/Services/Pricing/ProductCalculator.php:82-84 | the currency amount of a category: its recorded percentage of the price with margin |
| ProductCalculator.TotalDiscountAmount | app/Services/Pricing/ProductCalculator.php:86 | the summed percentage of the price with margin |
| ProductCalculator.PriceAfterDiscounts | app/Services/Pricing/ProductCalculator.php:87 | the price with margin less the total discount amount; its closed form is `DiscountsApplyOnce` |
| ProductCalculator.FreightLines | app/Services/Pricing/ProductCalculator.php:90-93 | a freight line only when the surcharge is positive |
| ProductCalculator.PriceBeforeTax | app/Services/Pricing/ProductCalculator.php:95 | the price after discounts plus the freight surcharge |
| ProductCalculator.TaxAmount | app/Services/Pricing/ProductCalculator.php:98-99 | the state's rate applied to the price before tax |
| ProductCalculator.UnitPrice | app/Services/Pricing/ProductCalculator.php:103 | the price before tax plus the tax; its closed form is `TaxAndTotal` |
| ProductCalculator.TotalPrice | app/Services/Pricing/ProductCalculator.php:104 | the unit price times the quantity |
| ProductCalculator.Breakdown | app/Services/Pricing/ProductCalculator.php:58-107 | the audit trail in the order `doCalculate` appends to it; its shape is `BreakdownShape` |
| ProductCalculator.Priced | app/Services/Pricing/ProductCalculator.php:109-122 | the result `doCalculate` returns, field by field; `DoCalculate` is proved to return it |
| ProductCalculator.CacheKey | app/Services/Pricing/ProductCalculator.php:34-42 | the digest of the request's parameters in name order; `KeyFor` is proved to compute it |
| ProductCalculator.SlotFor | app/Services/Pricing/ProductCalculator.php:34-44 | the storage slot of a request's cached result |
| ProductCalculator.MarginNeverLowersPrice | app/Services/Pricing/ProductCalculator.php:61-64 | for a valid request, the price with margin is at least the base price, which is positive |
| ProductCalculator.MarginFormula | app/Services/Pricing/ProductCalculator.php:61-64 | for a non-negative margin the price with margin is base × (1 + margin/100); with zero margin it is the base price |
| ProductCalculator.ShareOff | app/Services/Pricing/ProductCalculator.php:86-87 | (algebra helper) taking p% off an amount scales it by (1 − p/100) |
| ProductCalculator.ShareOn | app/Services/Pricing/ProductCalculator.php:99-103 | (algebra helper) adding p% to an amount scales it by (1 + p/100) |
| ProductCalculator.DiscountsApplyOnce | app/Services/Pricing/ProductCalculator.php:70-87 | the price after discounts is the price with margin × (1 − sum of all percentages/100); discounts are summed, not compounded |
| ProductCalculator.TaxAndTotal | app/Services/Pricing/ProductCalculator.php:95-104 | unit price = (price after discounts + freight) × (1 + rate/100), and total = unit price × quantity, with no rounding |
| ProductCalculator.UnnamedIsUnrecorded | app/Services/Pricing/ProductCalculator.php:73-80 | a name that no strategy carries is never entered in the name map |
| ProductCalculator.RecordedPercentsSumToTotal | app/Services/Pricing/ProductCalculator.php:70-84 | with no strategy listed twice, the percentages read back under the three names add up to the summed percentage |
| ProductCalculator.CategoryDiscountsSumToTotal | app/Services/Pricing/ProductCalculator.php:82-86 | with no strategy listed twice, the three per-category amounts add up to the total discount amount |
| ProductCalculator.SharesAdd | app/Services/Pricing/ProductCalculator.php:82-86 | (algebra helper) percentages of the same amount add up |
| ProductCalculator.AbsentNameReadsZero | app/Services/Pricing/ProductCalculator.php:82-84 | a category with no strategy reads as 0% and a zero amount (the `?? 0.0` fallback) |
| ProductCalculator.DiscountLinesArePositive | app/Services/Pricing/ProductCalculator.php:77-79 | there is one discount line per strategy with a strictly positive percentage, and every such line is positive |
| ProductCalculator.CountPositiveOfAppend | app/Services/Pricing/ProductCalculator.php:73-80 | appending a strategy adds one positive discount exactly when its percentage is positive |
| ProductCalculator.BreakdownShape | app/Services/Pricing/ProductCalculator.php:65-107 | the breakdown is: the base and margin lines; the positive discounts in strategy order; a freight line exactly when the surcharge is > 0; then the tax, unit and total lines. Its length is 5 + positive discounts + (1 if freight) |
| ProductCalculator.ConcatenationShape | app/Services/Pricing/ProductCalculator.php:65-107 | where each part of the breakdown sits in the concatenation |
| ProductCalculator.ResultFromArray | app/Services/Pricing/ProductCalculator.php:125-141 | the breakdown is read back as stored; a missing breakdown becomes empty |
| ProductCalculator.CacheRoundTrip | app/Services/Pricing/ProductCalculator.php:125-141 | `resultFromArray(toArray(r))` is `r` with every money field rounded to cents (the tax rate, quantity and breakdown are unchanged); serialising it again gives the same array |
| ProductCalculator.MissingBreakdownReadsEmpty | app/Services/Pricing/ProductCalculator.php:139 | a stored array without a breakdown is read back with an empty one |
| ProductCalculator.KeyParams | app/Services/Pricing/ProductCalculator.php:34-42 | the seven key parameters have distinct names |
| ProductCalculator.SortedKeyParamsAreSorted | app/Services/Pricing/ProductCalculator.php:34-42 | the parameters in name order are strictly sorted |
| ProductCalculator.SortedKeyParamsRearrange | app/Services/Pricing/ProductCalculator.php:34-42 | the name-ordered parameters are a permutation of the parameters in source order |
| ProductCalculator.KeyParamsSortByName | app/Services/Pricing/ProductCalculator.php:34-42 | `ksort` of the request's parameters gives them in name order |
| ProductCalculator.KeyFor | app/Services/Pricing/ProductCalculator.php:34-42 | the key `calculate` builds is the digest of the request's name-ordered parameters |
| ProductCalculator.KeyIgnoresFieldOrder | app/Services/Pricing/ProductCalculator.php:34-42 | listing the same fields in any order gives the same cache key |
| ProductCalculator.ProductCalculator.constructor | app/Services/Pricing/ProductCalculator.php:18-24 | keeps the collaborators it is given and starts with no strategies |
| ProductCalculator.ProductCalculator.AddDiscountStrategy | app/Services/Pricing/ProductCalculator.php:26-30 | appends to the end of the strategy list, keeps the earlier entries, and returns the same calculator |
| ProductCalculator.ProductCalculator.ApplyDiscounts | app/Services/Pricing/ProductCalculator.php:70-80 | the `foreach` computes the summed percentage, the per-name map (the last entry wins) and the positive discount lines |
| ProductCalculator.ProductCalculator.DoCalculate | app/Services/Pricing/ProductCalculator.php:56-123 | the step-by-step computation gives exactly the result the pricing functions define |
| ProductCalculator.ProductCalculator.Remember | app/Services/Pricing/ProductCalculator.php:51 | on a miss, writes `toArray` of the result under the key with a 300 s TTL, and nothing else |
| ProductCalculator.ProductCalculator.Calculate | app/Services/Pricing/ProductCalculator.php:32-54 | on a hit, returns `resultFromArray` of the stored array; the cache is unchanged and there is one read. On a miss, returns the fresh result and writes it once under the request's slot with TTL 300 (one read, then one write) |
| ProductCalculator.CalculateTwice | tests/Unit/Pricing/Pricing/ProductCalculatorTest.php:156-199 | two identical calls on an empty slot: two reads and one write; the second result is the first rounded to cents |
| ProductCalculatorFactory.CreateDefault | app/Services/Pricing/ProductCalculatorFactory.php:24-38 | returns a new calculator with a new adapter, charging ICMS, with the quantity, customer-type and premium discounts in that order |
| ProductCalculatorFactory.DefaultHasNoRepeats | app/Services/Pricing/ProductCalculatorFactory.php:32-35 | each standard rule is registered once |
| ProductCalculatorFactory.DefaultDiscounts | app/Services/Pricing/ProductCalculatorFactory.php:32-35 | with the standard rules, the summed percentage is the three rules' percentages (0 to 15); each category amount is its own rule's share, and the three add up to the total discount |
| ProductCalculatorFactory.DefaultKeepsPricePositive | app/Services/Pricing/ProductCalculator.php:86-87 | with the standard rules, a valid request keeps at least 85% of its margin price after discounts, so that price is positive |
| ProductCalculatorFactory.ShareIsMonotone | app/Services/Pricing/ProductCalculator.php:86 | (algebra helper) a smaller percentage of a non-negative amount is no larger |
| ProductCalculatorFactory.RetailSaoPauloPrice | tests/Unit/Pricing/Pricing/ProductCalculatorTest.php:44-64 | one retail unit at 100.00 to SP: 18% tax, 118.00 unit and total, non-empty breakdown |
| ProductCalculatorFactory.TenUnitsPrice | tests/Unit/Pricing/Pricing/ProductCalculatorTest.php:66-85 | ten units: 97.00 after discount, 114.46 per unit, 1144.60 in total |
| ProductCalculatorFactory.HeavyProductPrice | tests/Unit/Pricing/Pricing/ProductCalculatorTest.php:87-103 | 60 kg: a 15.00 surcharge and 135.70 per unit |
| ProductCalculatorFactory.RioDeJaneiroPrice | tests/Unit/Pricing/Pricing/ProductCalculatorTest.php:105-120 | RJ: 20% rate, 20.00 tax, 120.00 per unit |
| ProductCalculatorFactory.OneRetailUnit | tests/Unit/Pricing/Pricing/ProductCalculatorTest.php:105-120 | one light retail unit at 100.00 with no margin pays its state's rate on the whole 100.00: unit and total price are 100 + rate |
| ProductCalculatorFactory.PremiumPrice | tests/Unit/Pricing/Pricing/ProductCalculatorTest.php:122-137 | a premium customer gets 2.00 off 100.00 |
| ProductCalculatorFactory.MarginPrice | tests/Unit/Pricing/Pricing/ProductCalculatorTest.php:139-154 | a 10% margin raises 100.00 to 110.00 |
| ProductCalculatorFactory.CombinedDiscountsPrice | tests/Unit/Pricing/Pricing/ProductCalculatorTest.php:201-221 | wholesale, 50 units, premium: 12% off, 103.84 per unit, 5192.00 in total |

## Left out

- The HTTP controller (`PriceCalculateController`) and response formatting are
  not part of this model.
- Cache store:
  - The store is a map with no expiry: a TTL is recorded but never counted down.
  - Cache drivers, concurrent access and failing stores are not modelled. A
    store that throws or times out has no counterpart: `Get` always answers.
  - The trace of store calls is ghost state, kept only to state how many reads
    and writes happen.
- `md5(serialize(...))` is a deterministic function the calculator receives as
  the `digest` parameter. Its output length and collision behaviour are not
  modelled.
- Numbers:
  - Money is exact `real`, not IEEE-754 floats, so the tests' tolerance of 0.01
    becomes exact equality.
  - `number_format` with Brazilian formatting is not modelled. A breakdown line
    is a tagged value holding the numbers it displays, not a formatted string.
- PHP casts:
  - The type-juggling casts in `fromArray` and `resultFromArray` (`(float)`,
    `(int)`, `(string)`, `(bool)`) are not modelled: field values are taken as
    already typed.
  - A key that is present with a `null` value (which `??` treats as absent) is
    not distinguished from a value.
  - `strtoupper` maps only ASCII letters.
  - `ksort` of integer or numeric-string keys, which PHP compares as numbers
    (so `"9"` sorts before `"10"`), is not modelled: `Below` compares every key
    as a string.
- Interfaces:
  - `DiscountStrategyInterface` and `TaxStrategyInterface` are modelled as closed
    datatypes over the implementations in this repository.
  - `PriceCacheInterface` is not a separate type. Its one implementation, the
    class `LaravelCacheAdapter` over a `CacheStore`, stands in for it.
  - The test doubles of `PriceCacheInterface` are not modelled.
- `InvalidCalculationDataException` becomes the `Err` side of a result, carrying
  which check failed; its message text is not kept.
- `FreightModifier` is a module function rather than a collaborator object held
  by the calculator, because it has no state.
- Calculator structure:
  - Steps of the calculator that carry their own contract are separate methods:
    - `ApplyDiscounts` — the discount `foreach` of `doCalculate`.
    - `KeyFor` — building the cache key.
    - `Remember` — the cache write on a miss.
  - `taxAmount` is written as rate/100 × price rather than price × (rate/100),
    which is the same number in exact arithmetic.
- `IcmsTaxStrategy.TableKeys`: the table's size (27 states) is not proved; only
  the listed entries and the key shape are.
- The constructor's default arguments (`isPremium = false`,
  `profitMargin = 0.0`) are passed explicitly to `PriceCalculationDTO.New`.
  `FromArray` supplies the same defaults.
