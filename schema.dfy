/**
 * The three tables of vehicle/infrastructure/database/models.py and the
 * constraints the schema declares on them: integer primary keys handed out
 * by an autoincrement sequence, unique brand names, unique models, and
 * non-null foreign keys from vehicles to brands and from sale records to
 * vehicles.
 */
module Schema {
  import opened Wrappers
  import opened Fields

  /** A row of `vehicle_brand`. */
  datatype BrandRow = BrandRow(name: string, createdAt: Timestamp, updatedAt: Timestamp)

  /** A row of `vehicle`. */
  datatype VehicleRow = VehicleRow(
    brandId: int,
    model: string,
    year: int,
    color: string,
    price: int,
    createdAt: Timestamp,
    updatedAt: Timestamp)

  /**
   * A row of `vehicle_sold`. The table declares no `status` column, but the
   * adapter reads and writes one, so the row carries it as the adapter uses it.
   */
  datatype SaleRow = SaleRow(
    vehicleId: int,
    status: Option<string>,
    soldPrice: int,
    soldDate: Option<Timestamp>,
    userId: string,
    createdAt: Timestamp,
    updatedAt: Timestamp)

  /** The database: each table keyed by its primary key, and the next value of each sequence. */
  datatype Tables = Tables(
    brands: map<int, BrandRow>,
    vehicles: map<int, VehicleRow>,
    sales: map<int, SaleRow>,
    nextBrandId: int,
    nextVehicleId: int,
    nextOrderId: int)

  /** Every key was handed out by a sequence that starts at 1 and now stands at `next`. */
  ghost predicate KeysBelow<T>(m: map<int, T>, next: int) {
    1 <= next && forall id :: id in m ==> 1 <= id < next
  }

  /** `name = Column(String, unique=True)`. */
  ghost predicate UniqueBrandNames(t: Tables) {
    forall a, b :: a in t.brands && b in t.brands && t.brands[a].name == t.brands[b].name ==> a == b
  }

  /** `model = Column(String, unique=True)` and the `model_key` constraint. */
  ghost predicate UniqueModels(t: Tables) {
    forall a, b :: a in t.vehicles && b in t.vehicles && t.vehicles[a].model == t.vehicles[b].model ==> a == b
  }

  /** `brand_id = Column(Integer, ForeignKey('vehicle_brand.id'), nullable=False)`. */
  ghost predicate VehicleBrandsExist(t: Tables) {
    forall id :: id in t.vehicles ==> t.vehicles[id].brandId in t.brands
  }

  /** `vehicle_id = Column(Integer, ForeignKey('vehicle.id'), nullable=False)`. */
  ghost predicate SaleVehiclesExist(t: Tables) {
    forall o :: o in t.sales ==> t.sales[o].vehicleId in t.vehicles
  }

  /** All constraints the schema declares. */
  ghost predicate Consistent(t: Tables) {
    && KeysBelow(t.brands, t.nextBrandId)
    && KeysBelow(t.vehicles, t.nextVehicleId)
    && KeysBelow(t.sales, t.nextOrderId)
    && UniqueBrandNames(t)
    && UniqueModels(t)
    && VehicleBrandsExist(t)
    && SaleVehiclesExist(t)
  }

  /** The next value of a sequence is never a key already in use. */
  lemma NextKeysAreFresh(t: Tables)
    requires Consistent(t)
    ensures t.nextBrandId !in t.brands && t.nextVehicleId !in t.vehicles && t.nextOrderId !in t.sales
  {
  }

  /** Inserting a brand under the next id keeps the schema's constraints when its name is new. */
  lemma BrandInsertConsistent(t: Tables, row: BrandRow)
    requires Consistent(t)
    requires forall b :: b in t.brands ==> t.brands[b].name != row.name
    ensures Consistent(t.(brands := t.brands[t.nextBrandId := row], nextBrandId := t.nextBrandId + 1))
  {
    var t' := t.(brands := t.brands[t.nextBrandId := row], nextBrandId := t.nextBrandId + 1);
    forall a, b | a in t'.brands && b in t'.brands && t'.brands[a].name == t'.brands[b].name
      ensures a == b
    {
      if a != t.nextBrandId && b != t.nextBrandId {
        assert t.brands[a].name == t.brands[b].name;
      }
    }
  }

  /** Inserting a vehicle under the next id keeps the constraints when its model is new and its brand exists. */
  lemma VehicleInsertConsistent(t: Tables, row: VehicleRow)
    requires Consistent(t)
    requires forall v :: v in t.vehicles ==> t.vehicles[v].model != row.model
    requires row.brandId in t.brands
    ensures Consistent(t.(vehicles := t.vehicles[t.nextVehicleId := row], nextVehicleId := t.nextVehicleId + 1))
  {
    var t' := t.(vehicles := t.vehicles[t.nextVehicleId := row], nextVehicleId := t.nextVehicleId + 1);
    forall a, b | a in t'.vehicles && b in t'.vehicles && t'.vehicles[a].model == t'.vehicles[b].model
      ensures a == b
    {
      if a != t.nextVehicleId && b != t.nextVehicleId {
        assert t.vehicles[a].model == t.vehicles[b].model;
      }
    }
    assert SaleVehiclesExist(t');
  }

  /** Inserting a sale record under the next order id keeps the constraints when its vehicle exists. */
  lemma SaleInsertConsistent(t: Tables, row: SaleRow)
    requires Consistent(t)
    requires row.vehicleId in t.vehicles
    ensures Consistent(t.(sales := t.sales[t.nextOrderId := row], nextOrderId := t.nextOrderId + 1))
  {
  }
}
