/** The brand entity of vehicle/domain/entities/vehicle_brand.py. */
module BrandEntity {
  import opened Wrappers
  import opened Fields

  datatype VehicleBrand = VehicleBrand(name: string, createdAt: Timestamp, updatedAt: Timestamp)

  predicate ValidName(s: string) { 1 <= |s| <= 100 }

  /** The name is a string of 1 to 100 characters and both timestamps are given. */
  predicate Accepts(p: Payload) {
    "name" in p && p["name"].Str? && ValidName(p["name"].s)
    && IsDateTime(p, "created_at") && IsDateTime(p, "updated_at")
  }

  function Errors(p: Payload): seq<FieldError> {
    CheckStr(p, "name", 1, 100) + CheckDateTime(p, "created_at") + CheckDateTime(p, "updated_at")
  }

  /** `VehicleBrand(**p)`: the brand, or the validation errors. */
  function Create(p: Payload): (r: Result<VehicleBrand, seq<FieldError>>)
    ensures r.Success? <==> Accepts(p)
    ensures r.Failure? ==> r.error != []
    ensures r.Success? ==>
      && ValidName(r.value.name)
      && r.value.name == p["name"].s
      && r.value.createdAt == p["created_at"].t
      && r.value.updatedAt == p["updated_at"].t
  {
    var errs := Errors(p);
    if errs == [] then
      Success(VehicleBrand(p["name"].s, p["created_at"].t, p["updated_at"].t))
    else
      Failure(errs)
  }

  /**
   * `brand.name = name`: a plain assignment. Like any pydantic model without
   * `validate_assignment`, it is not validated.
   */
  function WithName(b: VehicleBrand, name: string): (r: VehicleBrand) {
    b.(name := name)
  }

  /** Assigning a name changes the name and nothing else, and skips validation. */
  lemma WithNameChangesOnlyName(b: VehicleBrand, name: string)
    ensures WithName(b, name).name == name
    ensures WithName(b, name).createdAt == b.createdAt && WithName(b, name).updatedAt == b.updatedAt
    ensures WithName(b, "") == VehicleBrand("", b.createdAt, b.updatedAt) && !ValidName(WithName(b, "").name)
  {
  }

  /** Equality is structural: two constructed brands are equal exactly when all three fields agree. */
  lemma EqualityIsStructural(p: Payload, q: Payload)
    requires Create(p).Success? && Create(q).Success?
    ensures Create(p) == Create(q) <==>
      (p["name"] == q["name"] && p["created_at"] == q["created_at"] && p["updated_at"] == q["updated_at"])
  {
  }

  /** A name of 0 or more than 100 characters, or a missing timestamp, is rejected. */
  lemma Rejections(p: Payload, s: string)
    requires Accepts(p)
    ensures Create(p["name" := Str(s)]).Success? <==> 1 <= |s| <= 100
    ensures Create(p["name" := Str(Repeat("test", 100))]).Failure?
    ensures Create(p["created_at" := Null]).Failure? && Create(p["updated_at" := Null]).Failure?
    ensures Create(p - {"created_at"}).Failure? && Create(p - {"updated_at"}).Failure?
  {
    assert !ValidName(Repeat("test", 100));
  }
}
