/** The sale record entity of vehicle/domain/entities/vehicle_sold.py. */
module SoldEntity {
  import opened Wrappers
  import opened Fields

  /** A sale record: order_id, sold_date and the two timestamps are optional. */
  datatype VehicleSold = VehicleSold(
    orderId: Option<int>,
    vehicleId: int,
    status: string,
    soldPrice: int,
    soldDate: Option<string>,
    userId: string,
    createdAt: Option<string>,
    updatedAt: Option<string>)

  /** Every field of the payload has the type its declaration asks for. */
  predicate Accepts(p: Payload) {
    && IsOptionalInt(p, "order_id")
    && IsInt(p, "vehicle_id")
    && IsText(p, "status")
    && IsInt(p, "sold_price")
    && IsOptionalText(p, "sold_date")
    && IsText(p, "user_id")
    && IsOptionalText(p, "created_at")
    && IsOptionalText(p, "updated_at")
  }

  /** The validation errors, one per failing field, in declaration order. */
  function Errors(p: Payload): seq<FieldError> {
    CheckOptionalInt(p, "order_id")
    + CheckInt(p, "vehicle_id")
    + CheckText(p, "status")
    + CheckNumber(p, "sold_price")
    + CheckOptionalText(p, "sold_date")
    + CheckText(p, "user_id")
    + CheckOptionalText(p, "created_at")
    + CheckOptionalText(p, "updated_at")
  }

  /** `VehicleSold(**p)`: the record, or the validation errors. */
  function Create(p: Payload): (r: Result<VehicleSold, seq<FieldError>>)
    ensures r.Success? <==> Accepts(p)
    ensures r.Failure? ==> r.error != []
    ensures r.Success? ==>
      && r.value.orderId == OptionalInt(p, "order_id")
      && r.value.vehicleId == p["vehicle_id"].i
      && r.value.status == p["status"].s
      && r.value.soldPrice == p["sold_price"].i
      && r.value.soldDate == OptionalText(p, "sold_date")
      && r.value.userId == p["user_id"].s
      && r.value.createdAt == OptionalText(p, "created_at")
      && r.value.updatedAt == OptionalText(p, "updated_at")
  {
    var errs := Errors(p);
    if errs == [] then
      Success(VehicleSold(
        OptionalInt(p, "order_id"), p["vehicle_id"].i, p["status"].s, p["sold_price"].i,
        OptionalText(p, "sold_date"), p["user_id"].s,
        OptionalText(p, "created_at"), OptionalText(p, "updated_at")))
    else
      Failure(errs)
  }

  /** The four required fields: leaving any one of them out is a `missing` error for it. */
  lemma RequiredFields(p: Payload, key: string)
    requires key in {"vehicle_id", "status", "sold_price", "user_id"}
    ensures Create(p - {key}).Failure?
    ensures FieldError(key, Missing) in Errors(p - {key})
  {
  }

  /** The four optional fields default to absent. */
  lemma OptionalFieldsDefaultToNone(p: Payload)
    requires Accepts(p)
    requires "order_id" !in p && "sold_date" !in p && "created_at" !in p && "updated_at" !in p
    ensures Create(p).Success?
    ensures Create(p).value.orderId == None && Create(p).value.soldDate == None
    ensures Create(p).value.createdAt == None && Create(p).value.updatedAt == None
  {
  }

  /** A non-integer order_id or vehicle_id is rejected (tests/vehicle/test_vehicle_sold.py). */
  lemma NonIntegerIdsRejected(p: Payload, s: string)
    ensures Create(p["order_id" := Str(s)]).Failure?
    ensures Create(p["vehicle_id" := Str(s)]).Failure?
  {
    assert !IsOptionalInt(p["order_id" := Str(s)], "order_id");
    assert !IsInt(p["vehicle_id" := Str(s)], "vehicle_id");
  }

  /** The fixture of the tests: every given field is kept. */
  lemma FixturePreserved()
    ensures
      var p := map["order_id" := Int(1), "vehicle_id" := Int(22), "status" := Str("sold"),
                   "sold_price" := Int(200000), "sold_date" := Str("2022-01-01"), "user_id" := Str("abof")];
      Create(p) == Success(VehicleSold(Some(1), 22, "sold", 200000, Some("2022-01-01"), "abof", None, None))
  {
  }
}
