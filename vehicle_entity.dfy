/** The vehicle entity of vehicle/domain/entities/vehicle.py. */
module VehicleEntity {
  import opened Wrappers
  import opened Fields
  import SoldEntity

  /**
   * A vehicle. The entity declares the five validated fields; `id` and `sold`
   * are the optional, unvalidated fields the adapter and the tests pass.
   */
  datatype Vehicle = Vehicle(
    id: Option<int>,
    brandName: string,
    model: string,
    year: int,
    color: string,
    price: int,
    sold: Option<SoldEntity.VehicleSold>)

  const MinYear := 1886

  predicate ValidBrandName(s: string) { 1 <= |s| <= 100 }
  predicate ValidModel(s: string) { 1 <= |s| <= 100 }
  predicate ValidYear(y: int) { y >= MinYear }
  predicate ValidColor(s: string) { 1 <= |s| <= 50 }
  predicate ValidPrice(p: int) { p > 0 }

  /** The field constraints an entity satisfies once constructed. */
  predicate Valid(v: Vehicle) {
    ValidBrandName(v.brandName) && ValidModel(v.model) && ValidYear(v.year)
    && ValidColor(v.color) && ValidPrice(v.price)
  }

  /** Every constrained field is present, well typed and within its bounds. */
  predicate Accepts(p: Payload) {
    && "brand_name" in p && p["brand_name"].Str? && ValidBrandName(p["brand_name"].s)
    && "model" in p && p["model"].Str? && ValidModel(p["model"].s)
    && "year" in p && p["year"].Int? && ValidYear(p["year"].i)
    && "color" in p && p["color"].Str? && ValidColor(p["color"].s)
    && "price" in p && p["price"].Int? && ValidPrice(p["price"].i)
  }

  /** The validation errors, one per failing field, in declaration order. */
  function Errors(p: Payload): seq<FieldError> {
    CheckStr(p, "brand_name", 1, 100)
    + CheckStr(p, "model", 1, 100)
    + CheckIntAtLeast(p, "year", MinYear)
    + CheckStr(p, "color", 1, 50)
    + CheckNumberAbove(p, "price", 0)
  }

  /** `Vehicle(**p)`: the entity, or the validation errors. */
  function Create(p: Payload): (r: Result<Vehicle, seq<FieldError>>)
    ensures r.Success? <==> Accepts(p)
    ensures r.Failure? ==> r.error != []
    ensures r.Success? ==>
      && Valid(r.value)
      && r.value.id == OptionalInt(p, "id")
      && r.value.brandName == p["brand_name"].s
      && r.value.model == p["model"].s
      && r.value.year == p["year"].i
      && r.value.color == p["color"].s
      && r.value.price == p["price"].i
      && r.value.sold == None
  {
    var errs := Errors(p);
    if errs == [] then
      Success(Vehicle(OptionalInt(p, "id"), p["brand_name"].s, p["model"].s, p["year"].i,
                      p["color"].s, p["price"].i, None))
    else
      Failure(errs)
  }

  /** The payload that names exactly the fields of `v`. */
  function PayloadOf(v: Vehicle): Payload {
    map["brand_name" := Str(v.brandName), "model" := Str(v.model), "year" := Int(v.year),
        "color" := Str(v.color), "price" := Int(v.price)]
  }

  /** A valid entity survives a trip through its payload, except for `id` and `sold`. */
  lemma CreateOfPayload(v: Vehicle)
    requires Valid(v)
    ensures Create(PayloadOf(v)) == Success(v.(id := None, sold := None))
  {
  }

  /** Given otherwise acceptable fields, the brand name decides: 1 <= |brand_name| <= 100. */
  lemma BrandNameRule(p: Payload, s: string)
    requires Accepts(p)
    ensures Create(p["brand_name" := Str(s)]).Success? <==> 1 <= |s| <= 100
  {
  }

  /** Given otherwise acceptable fields, the model decides: 1 <= |model| <= 100. */
  lemma ModelRule(p: Payload, s: string)
    requires Accepts(p)
    ensures Create(p["model" := Str(s)]).Success? <==> 1 <= |s| <= 100
  {
  }

  /** Given otherwise acceptable fields, the year decides: year >= 1886, with no upper bound. */
  lemma YearRule(p: Payload, y: int)
    requires Accepts(p)
    ensures Create(p["year" := Int(y)]).Success? <==> y >= 1886
  {
  }

  /** Given otherwise acceptable fields, the color decides: 1 <= |color| <= 50. */
  lemma ColorRule(p: Payload, s: string)
    requires Accepts(p)
    ensures Create(p["color" := Str(s)]).Success? <==> 1 <= |s| <= 50
  {
  }

  /** Given otherwise acceptable fields, the price decides: price > 0. */
  lemma PriceRule(p: Payload, x: int)
    requires Accepts(p)
    ensures Create(p["price" := Int(x)]).Success? <==> x > 0
  {
  }

  /** A field that is present but out of bounds is named in the errors with the bound it broke. */
  lemma ErrorNamesField(p: Payload)
    requires "brand_name" in p && p["brand_name"].Str? && |p["brand_name"].s| > 100
    ensures FieldError("brand_name", StringTooLong(100)) in Errors(p)
  {
    assert Errors(p)[0] == FieldError("brand_name", StringTooLong(100));
  }

  /** Text in the year or price field is a parsing error on that field alone. */
  lemma TextNumbersAreParsingErrors(p: Payload, s: string)
    requires Accepts(p)
    ensures Errors(p["year" := Str(s)]) == [FieldError("year", IntParsing)]
    ensures Errors(p["price" := Str(s)]) == [FieldError("price", FloatParsing)]
  {
  }

  /** The boundary values of tests/vehicle/test_vehicle.py. */
  lemma TestBoundaries(p: Payload)
    requires Accepts(p)
    ensures Create(p["brand_name" := Str("")]).Failure?
    ensures Create(p["brand_name" := Str(Repeat("test", 100))]).Failure?
    ensures Create(p["brand_name" := Str("A")]).Success?
    ensures Create(p["brand_name" := Str(Repeat("A", 100))]).Success?
    ensures Create(p["model" := Str("")]).Failure?
    ensures Create(p["model" := Str(Repeat("test", 100))]).Failure?
    ensures Create(p["model" := Str("A")]).Success?
    ensures Create(p["model" := Str(Repeat("A", 100))]).Success?
    ensures Create(p["year" := Int(0)]).Failure?
    ensures Create(p["year" := Int(1886)]).Success?
    ensures Create(p["year" := Int(9999)]).Success?
    ensures Create(p["color" := Str("")]).Failure?
    ensures Create(p["color" := Str(Repeat("test", 100))]).Failure?
    ensures Create(p["color" := Str("A")]).Success?
    ensures Create(p["color" := Str(Repeat("A", 50))]).Success?
    ensures Create(p["price" := Int(0)]).Failure?
    ensures Create(p["price" := Int(1)]).Success?
    ensures Create(p["price" := Int(1000000)]).Success?
  {
    BrandNameRule(p, "");
    BrandNameRule(p, Repeat("test", 100));
    BrandNameRule(p, "A");
    BrandNameRule(p, Repeat("A", 100));
    ModelRule(p, "");
    ModelRule(p, Repeat("test", 100));
    ModelRule(p, "A");
    ModelRule(p, Repeat("A", 100));
    ColorRule(p, "");
    ColorRule(p, Repeat("test", 100));
    ColorRule(p, "A");
    ColorRule(p, Repeat("A", 50));
  }
}
