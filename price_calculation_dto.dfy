/** The validated, immutable calculation request (`PriceCalculationDTO`) and
    the two ways of building one: the validating constructor and `fromArray`. */
module PriceCalculationDTO {
  import opened Wrappers
  import Ascii

  /** The reasons `InvalidCalculationDataException` is thrown with. */
  datatype InvalidCalculationData =
    | MissingField(field: string)
    | NonPositiveBasePrice
    | NonPositiveQuantity
    | InvalidCustomerType
    | NegativeWeight
    | NegativeProfitMargin

  /** The readonly fields of a request. Only `New` and `FromArray` hand
      one out, and both check `Valid` first. */
  datatype Dto = Dto(
    basePrice: real,
    quantity: int,
    customerType: string,
    state: string,
    weightKg: real,
    isPremium: bool,
    profitMargin: real)

  const AllowedCustomerTypes: seq<string> := ["varejo", "atacado", "revendedor"]

  const DefaultIsPremium := false
  const DefaultProfitMargin := 0.0

  /** What every constructed request satisfies. The state is free-form. */
  predicate Valid(d: Dto) {
    && d.basePrice > 0.0
    && d.quantity > 0
    && d.customerType in AllowedCustomerTypes
    && d.weightKg >= 0.0
    && d.profitMargin >= 0.0
  }

  /** The guard checks of `validate`, in order; the first that fails wins. */
  function Validate(d: Dto): (r: Option<InvalidCalculationData>)
    ensures r == None <==> Valid(d)
    ensures d.basePrice <= 0.0 ==> r == Some(NonPositiveBasePrice)
    ensures d.basePrice > 0.0 && d.quantity <= 0 ==> r == Some(NonPositiveQuantity)
    ensures (d.basePrice > 0.0 && d.quantity > 0 && d.customerType !in AllowedCustomerTypes)
            ==> r == Some(InvalidCustomerType)
    ensures (d.basePrice > 0.0 && d.quantity > 0 && d.customerType in AllowedCustomerTypes
             && d.weightKg < 0.0) ==> r == Some(NegativeWeight)
    ensures (d.basePrice > 0.0 && d.quantity > 0 && d.customerType in AllowedCustomerTypes
             && d.weightKg >= 0.0 && d.profitMargin < 0.0) ==> r == Some(NegativeProfitMargin)
  {
    if d.basePrice <= 0.0 then Some(NonPositiveBasePrice)
    else if d.quantity <= 0 then Some(NonPositiveQuantity)
    else if d.customerType !in AllowedCustomerTypes then Some(InvalidCustomerType)
    else if d.weightKg < 0.0 then Some(NegativeWeight)
    else if d.profitMargin < 0.0 then Some(NegativeProfitMargin)
    else None
  }

  /** `new PriceCalculationDTO(...)`: keeps every argument as given (the
      state is not uppercased here) or throws the first failed check. */
  function New(basePrice: real, quantity: int, customerType: string, state: string,
               weightKg: real, isPremium: bool, profitMargin: real)
    : (r: Result<Dto, InvalidCalculationData>)
    ensures r.Ok? <==> Valid(Dto(basePrice, quantity, customerType, state, weightKg, isPremium, profitMargin))
    ensures r.Ok? ==> r.value == Dto(basePrice, quantity, customerType, state, weightKg, isPremium, profitMargin)
    ensures r.Err? ==> Validate(Dto(basePrice, quantity, customerType, state, weightKg, isPremium, profitMargin)) == Some(r.error)
    ensures r.Err? ==> !r.error.MissingField?
  {
    var d := Dto(basePrice, quantity, customerType, state, weightKg, isPremium, profitMargin);
    match Validate(d)
    case None => Ok(d)
    case Some(e) => Err(e)
  }

  /** The request array as `fromArray` sees it: a missing key is `None`.
      Values are taken as already of the right type. */
  datatype RequestArray = RequestArray(
    basePrice: Option<real>,
    quantity: Option<int>,
    customerType: Option<string>,
    state: Option<string>,
    weightKg: Option<real>,
    isPremium: Option<bool>,
    profitMargin: Option<real>)

  /** The required keys, in the order `fromArray` checks them. */
  const RequiredFields: seq<string> := ["base_price", "quantity", "customer_type", "state", "weight_kg"]

  /** `array_key_exists($field, $data)` for the keys of the request array. */
  predicate Has(a: RequestArray, field: string) {
    match field
    case "base_price" => a.basePrice.Some?
    case "quantity" => a.quantity.Some?
    case "customer_type" => a.customerType.Some?
    case "state" => a.state.Some?
    case "weight_kg" => a.weightKg.Some?
    case "is_premium" => a.isPremium.Some?
    case "profit_margin" => a.profitMargin.Some?
    case _ => false
  }

  /** The first of the required keys, in the order `fromArray` checks them,
      that is absent from `a`. */
  function FirstMissingField(a: RequestArray): (r: Option<string>)
    ensures r == None <==>
      a.basePrice.Some? && a.quantity.Some? && a.customerType.Some? && a.state.Some? && a.weightKg.Some?
    ensures r.Some? ==> r.value in ["base_price", "quantity", "customer_type", "state", "weight_kg"]
    ensures r.Some? ==> exists i | 0 <= i < |RequiredFields| ::
      && RequiredFields[i] == r.value
      && !Has(a, RequiredFields[i])
      && forall j | 0 <= j < i :: Has(a, RequiredFields[j])
  {
    if a.basePrice.None? then
      assert RequiredFields[0] == "base_price";
      Some("base_price")
    else if a.quantity.None? then
      assert RequiredFields[1] == "quantity";
      Some("quantity")
    else if a.customerType.None? then
      assert RequiredFields[2] == "customer_type";
      Some("customer_type")
    else if a.state.None? then
      assert RequiredFields[3] == "state";
      Some("state")
    else if a.weightKg.None? then
      assert RequiredFields[4] == "weight_kg";
      Some("weight_kg")
    else None
  }

  /** The `foreach` over the required keys in `fromArray`: stops at the
      first absent one. */
  method CheckRequired(a: RequestArray) returns (missing: Option<string>)
    ensures missing == FirstMissingField(a)
  {
    var fields := RequiredFields;
    for i := 0 to |fields|
      invariant forall j | 0 <= j < i :: Has(a, fields[j])
    {
      if !Has(a, fields[i]) {
        return Some(fields[i]);
      }
    }
    return None;
  }

  /** `PriceCalculationDTO::fromArray`: the presence checks come before any
      value check; the state is uppercased; the optional flags default. */
  function FromArray(a: RequestArray): (r: Result<Dto, InvalidCalculationData>)
    ensures FirstMissingField(a).Some? ==> r == Err(MissingField(FirstMissingField(a).value))
    ensures FirstMissingField(a).None? && r.Err? ==> !r.error.MissingField?
    ensures r.Ok? ==> Valid(r.value)
    ensures r.Ok? ==> r.value == Dto(a.basePrice.value, a.quantity.value, a.customerType.value,
                                     Ascii.ToUpper(a.state.value), a.weightKg.value,
                                     a.isPremium.GetOr(false), a.profitMargin.GetOr(0.0))
    ensures FirstMissingField(a).None? ==>
      var d := Dto(a.basePrice.value, a.quantity.value, a.customerType.value,
                   Ascii.ToUpper(a.state.value), a.weightKg.value,
                   a.isPremium.GetOr(false), a.profitMargin.GetOr(0.0));
      && (r.Ok? <==> Valid(d))
      && (r.Err? ==> Validate(d) == Some(r.error))
  {
    match FirstMissingField(a)
    case Some(field) => Err(MissingField(field))
    case None =>
      New(a.basePrice.value, a.quantity.value, a.customerType.value,
          Ascii.ToUpper(a.state.value), a.weightKg.value,
          a.isPremium.GetOr(DefaultIsPremium), a.profitMargin.GetOr(DefaultProfitMargin))
  }

  /** A complete request for state `sp`, in lower case, without the
      optional keys. */
  function LowerCaseStateRequest(): RequestArray {
    RequestArray(Some(100.0), Some(1), Some("varejo"), Some("sp"), Some(5.0), None, None)
  }

  /** `fromArray` uppercases the state, the constructor keeps it as given. */
  lemma StateUppercasedOnlyByFromArray()
    ensures FromArray(LowerCaseStateRequest()) == Ok(Dto(100.0, 1, "varejo", "SP", 5.0, false, 0.0))
    ensures New(100.0, 1, "varejo", "sp", 5.0, false, 0.0).value.state == "sp"
  {
    assert Ascii.ToUpper("sp") == "SP" by {
      assert Ascii.ToUpper("sp") == [Ascii.UpperChar('s')] + Ascii.ToUpper("p");
    }
  }

  /** Absent `is_premium` and `profit_margin` become false and 0.0. */
  lemma OptionalFieldsDefault(a: RequestArray)
    requires FromArray(a).Ok?
    requires a.isPremium == None && a.profitMargin == None
    ensures !FromArray(a).value.isPremium && FromArray(a).value.profitMargin == 0.0
  {
  }

  /** The state takes no part in validation: any string, the empty one
      included, is accepted wherever the other fields are. */
  lemma StateIsNeverValidated(d: Dto, otherState: string)
    ensures Validate(d) == Validate(d.(state := otherState))
    ensures Valid(d) ==> New(d.basePrice, d.quantity, d.customerType, "", d.weightKg,
                             d.isPremium, d.profitMargin).Ok?
  {
  }

  /** A zero price or a zero quantity is rejected, and with two faults at once
      the earlier check is reported. */
  lemma ZeroPriceAndQuantityRejected(state: string, weightKg: real)
    ensures New(0.0, 1, "varejo", state, weightKg, false, 0.0) == Err(NonPositiveBasePrice)
    ensures New(100.0, 0, "varejo", state, weightKg, false, 0.0) == Err(NonPositiveQuantity)
    ensures New(-10.0, 0, "pessoa_fisica", state, -1.0, false, -1.0) == Err(NonPositiveBasePrice)
    ensures weightKg >= 0.0 ==> New(100.0, 1, "pessoa_fisica", state, weightKg, false, 0.0) == Err(InvalidCustomerType)
  {
  }
}
