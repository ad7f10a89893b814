/** The `allOf` product example: the three facet schemas `BaseProduct`,
    `InventoryItem` and `ShippingDetails`, their composition
    `CompleteProduct` with its two cross-field rules, and
    `POST /products/allof`. Numbers are exact reals. */
module Products {
  import opened Common
  import Patterns

  /** A request body: every field may be absent. */
  datatype ProductPayload = ProductPayload(
    id: Option<string>,
    name: Option<string>,
    price: Option<real>,
    stockCount: Option<int>,
    warehouseLocation: Option<string>,
    reorderPoint: Option<int>,
    weightKg: Option<real>,
    dimensionsCm: Option<seq<real>>,
    fragile: Option<bool>)

  datatype BaseProduct = BaseProduct(id: string, name: string, price: real)
  datatype InventoryItem = InventoryItem(stockCount: int, warehouseLocation: string, reorderPoint: int)
  datatype ShippingDetails = ShippingDetails(weightKg: real, length: real, width: real, height: real, fragile: bool)

  /** `CompleteProduct`: one value of each facet. */
  datatype CompleteProduct = CompleteProduct(base: BaseProduct, inventory: InventoryItem, shipping: ShippingDetails)

  datatype ProductError =
    | FieldsRejected(errors: seq<FieldError>)   // some facet field is invalid
    | DensityExceeded                           // "Product density exceeds maximum allowed"
    | ReorderValueExceeded                      // "Total reorder value exceeds maximum allowed (10000)"

  const MAX_NAME_LENGTH: int := 100
  const MAX_WEIGHT_KG: real := 1000.0
  const MAX_DIMENSION_CM: real := 300.0
  const MAX_DENSITY_KG_M3: real := 2000.0
  const MAX_REORDER_VALUE: real := 10000.0
  const DIMENSIONS_MESSAGE: string := "Dimensions must be 3 positive values, each ≤ 300cm"

  // ---------------------------------------------------------------------
  // The facets

  function PatternErrors(loc: string, v: Option<string>, pattern: seq<Patterns.Term>): seq<FieldError>
  {
    if v.None? then [FieldError(loc, Missing)]
    else if !Patterns.Matches(pattern, v.value) then [FieldError(loc, PatternMismatch)]
    else []
  }

  function NameErrors(v: Option<string>): seq<FieldError>
  {
    if v.None? then [FieldError("name", Missing)]
    else if |v.value| < 1 then [FieldError("name", StringTooShort)]
    else if |v.value| > MAX_NAME_LENGTH then [FieldError("name", StringTooLong)]
    else []
  }

  function PositiveErrors(loc: string, v: Option<real>): seq<FieldError>
  {
    if v.None? then [FieldError(loc, Missing)]
    else if v.value <= 0.0 then [FieldError(loc, GreaterThan)]
    else []
  }

  function NonNegativeErrors(loc: string, v: Option<int>): seq<FieldError>
  {
    if v.None? then [FieldError(loc, Missing)]
    else if v.value < 0 then [FieldError(loc, GreaterThanEqual)]
    else []
  }

  function WeightErrors(v: Option<real>): seq<FieldError>
  {
    if v.None? then [FieldError("weight_kg", Missing)]
    else if v.value <= 0.0 then [FieldError("weight_kg", GreaterThan)]
    else if v.value > MAX_WEIGHT_KG then [FieldError("weight_kg", LessThanEqual)]
    else []
  }

  /** The three-value tuple, then its own validator. */
  function DimensionErrors(v: Option<seq<real>>): seq<FieldError>
  {
    if v.None? then [FieldError("dimensions_cm", Missing)]
    else if |v.value| != 3 then [FieldError("dimensions_cm", TupleLength)]
    else if !(forall k :: 0 <= k < 3 ==> 0.0 < v.value[k] <= MAX_DIMENSION_CM)
    then [FieldError("dimensions_cm", ValueError(DIMENSIONS_MESSAGE))]
    else []
  }

  function BaseProductErrors(p: ProductPayload): seq<FieldError>
  {
    PatternErrors("id", p.id, Patterns.PRODUCT_ID) + NameErrors(p.name) + PositiveErrors("price", p.price)
  }

  function InventoryErrors(p: ProductPayload): seq<FieldError>
  {
    NonNegativeErrors("stock_count", p.stockCount)
    + PatternErrors("warehouse_location", p.warehouseLocation, Patterns.WAREHOUSE_LOCATION)
    + NonNegativeErrors("reorder_point", p.reorderPoint)
  }

  function ShippingErrors(p: ProductPayload): seq<FieldError>
  {
    WeightErrors(p.weightKg) + DimensionErrors(p.dimensionsCm)
  }

  /** The `BaseProduct` constraints, stated directly. */
  predicate BaseProductValid(p: ProductPayload)
  {
    && p.id.Some? && Patterns.IsProductId(p.id.value)
    && p.name.Some? && 1 <= |p.name.value| <= MAX_NAME_LENGTH
    && p.price.Some? && p.price.value > 0.0
  }

  /** The `InventoryItem` constraints, stated directly. */
  predicate InventoryValid(p: ProductPayload)
  {
    && p.stockCount.Some? && p.stockCount.value >= 0
    && p.warehouseLocation.Some? && Patterns.IsWarehouseLocation(p.warehouseLocation.value)
    && p.reorderPoint.Some? && p.reorderPoint.value >= 0
  }

  /** The `ShippingDetails` constraints, stated directly. */
  predicate ShippingValid(p: ProductPayload)
  {
    && p.weightKg.Some? && 0.0 < p.weightKg.value <= MAX_WEIGHT_KG
    && p.dimensionsCm.Some? && |p.dimensionsCm.value| == 3
    && 0.0 < p.dimensionsCm.value[0] <= MAX_DIMENSION_CM
    && 0.0 < p.dimensionsCm.value[1] <= MAX_DIMENSION_CM
    && 0.0 < p.dimensionsCm.value[2] <= MAX_DIMENSION_CM
  }

  function ValidateBaseProduct(p: ProductPayload): (r: Result<BaseProduct, seq<FieldError>>)
    ensures r.Ok? <==> BaseProductValid(p)
    ensures r.Ok? ==> r.value == BaseProduct(p.id.value, p.name.value, p.price.value)
    ensures r.Err? ==> r.error != [] && r.error == BaseProductErrors(p)
  {
    assert p.id.Some? ==> (Patterns.Matches(Patterns.PRODUCT_ID, p.id.value) <==> Patterns.IsProductId(p.id.value)) by {
      if p.id.Some? { Patterns.ProductIdPattern(p.id.value); }
    }
    var errs := BaseProductErrors(p);
    if errs == [] then Ok(BaseProduct(p.id.value, p.name.value, p.price.value)) else Err(errs)
  }

  function ValidateInventory(p: ProductPayload): (r: Result<InventoryItem, seq<FieldError>>)
    ensures r.Ok? <==> InventoryValid(p)
    ensures r.Ok? ==> r.value == InventoryItem(p.stockCount.value, p.warehouseLocation.value, p.reorderPoint.value)
    ensures r.Err? ==> r.error != [] && r.error == InventoryErrors(p)
  {
    assert p.warehouseLocation.Some? ==>
      (Patterns.Matches(Patterns.WAREHOUSE_LOCATION, p.warehouseLocation.value) <==>
       Patterns.IsWarehouseLocation(p.warehouseLocation.value)) by {
      if p.warehouseLocation.Some? { Patterns.WarehouseLocationPattern(p.warehouseLocation.value); }
    }
    var errs := InventoryErrors(p);
    if errs == [] then Ok(InventoryItem(p.stockCount.value, p.warehouseLocation.value, p.reorderPoint.value))
    else Err(errs)
  }

  function ValidateShipping(p: ProductPayload): (r: Result<ShippingDetails, seq<FieldError>>)
    ensures r.Ok? <==> ShippingValid(p)
    ensures r.Ok? ==> r.value == ShippingDetails(p.weightKg.value, p.dimensionsCm.value[0], p.dimensionsCm.value[1],
                                                 p.dimensionsCm.value[2], p.fragile == Some(true))
    ensures r.Err? ==> r.error != [] && r.error == ShippingErrors(p)
  {
    var errs := ShippingErrors(p);
    if errs == [] then
      var d := p.dimensionsCm.value;
      Ok(ShippingDetails(p.weightKg.value, d[0], d[1], d[2], if p.fragile.Some? then p.fragile.value else false))
    else Err(errs)
  }

  // ---------------------------------------------------------------------
  // The composite and its cross-field rules

  /** The volume in cubic metres of a box measured in centimetres. */
  function VolumeM3(s: ShippingDetails): real
  {
    (s.length * s.width * s.height) / 1000000.0
  }

  /** The density rule as written: reject when weight over volume exceeds 2000. */
  predicate DensityOk(s: ShippingDetails)
    requires s.length > 0.0 && s.width > 0.0 && s.height > 0.0
  {
    assert s.length * s.width > 0.0;
    !(s.weightKg / VolumeM3(s) > MAX_DENSITY_KG_M3)
  }

  /** The reorder rule: the stock to be reordered is worth at most 10000. */
  function ReorderValue(product: CompleteProduct): real
  {
    (product.inventory.reorderPoint as real) * product.base.price
  }

  /** The density rule without division: 500 times the weight in kilograms
      is at most the volume in cubic centimetres. */
  predicate DensityRule(s: ShippingDetails)
  {
    s.weightKg * 500.0 <= s.length * s.width * s.height
  }

  /** The reorder rule on the facet values it reads. */
  predicate ReorderRule(inventory: InventoryItem, base: BaseProduct)
  {
    (inventory.reorderPoint as real) * base.price <= MAX_REORDER_VALUE
  }

  /** Without division: a box passes the density rule exactly when 500 times
      its weight in kilograms is at most its volume in cubic centimetres. */
  lemma DensityWithoutDivision(s: ShippingDetails)
    requires s.length > 0.0 && s.width > 0.0 && s.height > 0.0
    ensures VolumeM3(s) > 0.0
    ensures DensityOk(s) <==> DensityRule(s)
  {
    var lw := s.length * s.width;
    assert lw > 0.0;
    var cm3 := lw * s.height;
    assert cm3 > 0.0;
    var v := VolumeM3(s);
    assert v * 1000000.0 == cm3;
    var d := s.weightKg / v;
    assert d * v == s.weightKg;
    if d > MAX_DENSITY_KG_M3 {
      assert s.weightKg - MAX_DENSITY_KG_M3 * v == (d - MAX_DENSITY_KG_M3) * v;
    } else {
      assert MAX_DENSITY_KG_M3 * v - s.weightKg == (MAX_DENSITY_KG_M3 - d) * v;
    }
  }

  /** All field errors of `CompleteProduct`, in its field order: the facets'
      fields come from its bases taken from the last (`ShippingDetails`) to
      the first (`BaseProduct`). */
  function CompositeErrors(p: ProductPayload): seq<FieldError>
  {
    ShippingErrors(p) + InventoryErrors(p) + BaseProductErrors(p)
  }

  /** `validate_complete_product`: on a product whose fields are all valid,
      the density rule, then the reorder rule. */
  function CheckCrossFieldRules(product: CompleteProduct): (r: Result<CompleteProduct, ProductError>)
    requires product.shipping.length > 0.0 && product.shipping.width > 0.0 && product.shipping.height > 0.0
    ensures r.Ok? <==> DensityRule(product.shipping) && ReorderRule(product.inventory, product.base)
    ensures r.Ok? ==> r.value == product
    ensures r == Err(DensityExceeded) <==> !DensityRule(product.shipping)
  {
    DensityWithoutDivision(product.shipping);
    if !DensityOk(product.shipping) then Err(DensityExceeded)
    else if ReorderValue(product) > MAX_REORDER_VALUE then Err(ReorderValueExceeded)
    else Ok(product)
  }

  /** `CompleteProduct`: every field of every facet, then the cross-field
      rules. */
  function ValidateCompleteProduct(p: ProductPayload): (r: Result<CompleteProduct, ProductError>)
    ensures r.Ok? <==>
      && ValidateBaseProduct(p).Ok? && ValidateInventory(p).Ok? && ValidateShipping(p).Ok?
      && DensityRule(ValidateShipping(p).value)
      && ReorderRule(ValidateInventory(p).value, ValidateBaseProduct(p).value)
    ensures r.Ok? ==> r.value == CompleteProduct(ValidateBaseProduct(p).value, ValidateInventory(p).value, ValidateShipping(p).value)
    ensures r.Err? && r.error.FieldsRejected? <==> !(BaseProductValid(p) && InventoryValid(p) && ShippingValid(p))
    ensures r.Err? && r.error.FieldsRejected? ==> r.error.errors == CompositeErrors(p)
  {
    var errs := CompositeErrors(p);
    var base, inventory, shipping := ValidateBaseProduct(p), ValidateInventory(p), ValidateShipping(p);
    if errs != [] then Err(FieldsRejected(errs))
    else CheckCrossFieldRules(CompleteProduct(base.value, inventory.value, shipping.value))
  }

  /** The composite reports every facet's errors, whichever facet is
      checked first: the same entries as the facets checked one by one. */
  lemma FacetOrderIrrelevant(p: ProductPayload)
    ensures CompositeErrors(p) == [] <==> BaseProductValid(p) && InventoryValid(p) && ShippingValid(p)
    ensures multiset(CompositeErrors(p)) ==
      multiset(BaseProductErrors(p)) + multiset(InventoryErrors(p)) + multiset(ShippingErrors(p))
  {
    var _ := ValidateBaseProduct(p);
    var _ := ValidateInventory(p);
    var _ := ValidateShipping(p);
  }

  /** The `BaseProduct` fields whose constraints a payload violates. */
  function BaseFailingFields(p: ProductPayload): set<string>
  {
    (if p.id.Some? && Patterns.IsProductId(p.id.value) then {} else {"id"})
    + (if p.name.Some? && 1 <= |p.name.value| <= MAX_NAME_LENGTH then {} else {"name"})
    + (if p.price.Some? && p.price.value > 0.0 then {} else {"price"})
  }

  /** The `InventoryItem` fields whose constraints a payload violates. */
  function InventoryFailingFields(p: ProductPayload): set<string>
  {
    (if p.stockCount.Some? && p.stockCount.value >= 0 then {} else {"stock_count"})
    + (if p.warehouseLocation.Some? && Patterns.IsWarehouseLocation(p.warehouseLocation.value)
       then {} else {"warehouse_location"})
    + (if p.reorderPoint.Some? && p.reorderPoint.value >= 0 then {} else {"reorder_point"})
  }

  /** The `ShippingDetails` fields whose constraints a payload violates
      (`fragile` has none beyond its type). */
  function ShippingFailingFields(p: ProductPayload): set<string>
  {
    (if p.weightKg.Some? && 0.0 < p.weightKg.value <= MAX_WEIGHT_KG then {} else {"weight_kg"})
    + (if p.dimensionsCm.Some? && |p.dimensionsCm.value| == 3
          && (forall k :: 0 <= k < 3 ==> 0.0 < p.dimensionsCm.value[k] <= MAX_DIMENSION_CM)
       then {} else {"dimensions_cm"})
  }

  /** The locations of a field check's errors: none, or its own field. */
  lemma LocsOfFieldCheck(errs: seq<FieldError>, loc: string)
    requires |errs| <= 1 && forall k :: 0 <= k < |errs| ==> errs[k].loc == loc
    ensures Locs(errs) == if errs == [] then {} else {loc}
  {
    if errs != [] {
      assert errs == [errs[0]];
      LocsSingle(errs[0]);
    }
  }

  lemma BaseFailingFieldsReported(p: ProductPayload)
    ensures Locs(BaseProductErrors(p)) == BaseFailingFields(p)
  {
    if p.id.Some? { Patterns.ProductIdPattern(p.id.value); }
    var id, name, price := PatternErrors("id", p.id, Patterns.PRODUCT_ID), NameErrors(p.name), PositiveErrors("price", p.price);
    LocsOfFieldCheck(id, "id");
    LocsOfFieldCheck(name, "name");
    LocsOfFieldCheck(price, "price");
    LocsAppend(id, name);
    LocsAppend(id + name, price);
  }

  lemma InventoryFailingFieldsReported(p: ProductPayload)
    ensures Locs(InventoryErrors(p)) == InventoryFailingFields(p)
  {
    if p.warehouseLocation.Some? { Patterns.WarehouseLocationPattern(p.warehouseLocation.value); }
    var stock := NonNegativeErrors("stock_count", p.stockCount);
    var location := PatternErrors("warehouse_location", p.warehouseLocation, Patterns.WAREHOUSE_LOCATION);
    var reorder := NonNegativeErrors("reorder_point", p.reorderPoint);
    LocsOfFieldCheck(stock, "stock_count");
    LocsOfFieldCheck(location, "warehouse_location");
    LocsOfFieldCheck(reorder, "reorder_point");
    LocsAppend(stock, location);
    LocsAppend(stock + location, reorder);
  }

  lemma ShippingFailingFieldsReported(p: ProductPayload)
    ensures Locs(ShippingErrors(p)) == ShippingFailingFields(p)
  {
    var weight, dims := WeightErrors(p.weightKg), DimensionErrors(p.dimensionsCm);
    LocsOfFieldCheck(weight, "weight_kg");
    LocsOfFieldCheck(dims, "dimensions_cm");
    LocsAppend(weight, dims);
  }

  /** A rejected `CompleteProduct` names exactly the fields that violate
      their constraints: every failing field of every facet is reported,
      and no other. */
  lemma FailingFieldsReported(p: ProductPayload)
    ensures Locs(CompositeErrors(p)) ==
      ShippingFailingFields(p) + InventoryFailingFields(p) + BaseFailingFields(p)
  {
    BaseFailingFieldsReported(p);
    InventoryFailingFieldsReported(p);
    ShippingFailingFieldsReported(p);
    LocsAppend(ShippingErrors(p), InventoryErrors(p));
    LocsAppend(ShippingErrors(p) + InventoryErrors(p), BaseProductErrors(p));
  }

  /** The metrics `POST /products/allof` reports with an accepted product
      (the rounded volume and density are not modelled). */
  datatype ProductResponse = ProductResponse(product: CompleteProduct, reorderValue: real)

  /** `POST /products/allof`. */
  function CreateProduct(p: ProductPayload): (r: Result<ProductResponse, ProductError>)
    ensures r.Ok? <==> ValidateCompleteProduct(p).Ok?
    ensures r.Ok? ==> r.value.product == ValidateCompleteProduct(p).value
    ensures r.Err? ==> r.error == ValidateCompleteProduct(p).error
    ensures r.Ok? ==> 0.0 <= r.value.reorderValue <= MAX_REORDER_VALUE
    ensures r.Ok? ==> r.value.reorderValue == (p.reorderPoint.value as real) * p.price.value
    ensures r.Ok? ==> VolumeM3(r.value.product.shipping) > 0.0
  {
    match ValidateCompleteProduct(p)
    case Err(e) => Err(e)
    case Ok(product) =>
      DensityWithoutDivision(product.shipping);
      assert (product.inventory.reorderPoint as real) >= 0.0 && product.base.price > 0.0;
      Ok(ProductResponse(product, ReorderValue(product)))
  }
}
