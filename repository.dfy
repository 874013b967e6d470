/**
 * VehicleRepositoryAdapter of
 * vehicle/adapters/repositories/vehicle_repository_adapter.py over an
 * in-memory database: three tables the methods add to, update and delete
 * from, and the autoincrement sequences that hand out their keys. Every
 * method is proved to perform the update its function in `RepositorySpec`
 * describes, and to keep the store invariant.
 */
module Repository {
  import opened Wrappers
  import opened Fields
  import opened Schema
  import opened Exceptions
  import opened RepositorySpec
  import VE = VehicleEntity

  class VehicleRepositoryAdapter {
    var brands: map<int, BrandRow>
    var vehicles: map<int, VehicleRow>
    var sales: map<int, SaleRow>
    var nextBrandId: int
    var nextVehicleId: int
    var nextOrderId: int

    /** The database as a value. */
    function State(): Tables
      reads this
    {
      Tables(brands, vehicles, sales, nextBrandId, nextVehicleId, nextOrderId)
    }

    ghost predicate Valid()
      reads this
    {
      RepositorySpec.Valid(State())
    }

    /** `VehicleRepositoryAdapter(db)`: an adapter bound to a database. */
    constructor (db: Tables)
      requires RepositorySpec.Valid(db)
      ensures Valid() && State() == db
    {
      brands, vehicles, sales := db.brands, db.vehicles, db.sales;
      nextBrandId, nextVehicleId, nextOrderId := db.nextBrandId, db.nextVehicleId, db.nextOrderId;
    }

    /** get_brand: the id of the brand named exactly `name`, if any. */
    method GetBrand(name: string) returns (r: Option<int>)
      requires Valid()
      ensures r == GetBrandOn(State(), name)
      ensures r.Some? ==> r.value in brands && brands[r.value].name == name
      ensures r.None? ==> forall id :: id in brands ==> brands[id].name != name
    {
      if exists id :: id in brands && brands[id].name == name {
        var id :| id in brands && brands[id].name == name;
        r := Some(id);
      } else {
        r := None;
      }
    }

    /** create_brand: insert the brand; the commit fails on a taken name. */
    method CreateBrand(name: string, now: Timestamp) returns (r: Result<int, Error>)
      requires Valid() && VE.ValidBrandName(name)
      modifies this
      ensures Valid()
      ensures State() == CreateBrandOn(old(State()), name, now).tables
      ensures r == CreateBrandOn(old(State()), name, now).result
    {
      var existing := GetBrand(name);
      if existing.Some? {
        r := Failure(Storage(IntegrityError));
        return;
      }
      var id := nextBrandId;
      brands := brands[id := BrandRow(name, now, now)];
      nextBrandId := id + 1;
      r := Success(id);
    }

    /** The brand lookup-or-create that save and update begin with. */
    method ResolveBrandId(name: string, now: Timestamp) returns (brandId: int)
      requires Valid() && VE.ValidBrandName(name)
      modifies this
      ensures Valid()
      ensures State() == ResolveBrand(old(State()), name, now).tables
      ensures brandId == ResolveBrand(old(State()), name, now).result
    {
      var brand := GetBrand(name);
      if brand.Some? {
        brandId := brand.value;
      } else {
        var created := CreateBrand(name, now);
        brandId := created.value;
      }
    }

    /** save: the input fields with the id the database assigned. */
    method Save(v: VE.Vehicle, now: Timestamp) returns (r: Result<VE.Vehicle, Error>)
      requires Valid() && VE.Valid(v)
      modifies this
      ensures Valid()
      ensures State() == SaveOn(old(State()), v, now).tables
      ensures r == SaveOn(old(State()), v, now).result
    {
      var brandId := ResolveBrandId(v.brandName, now);
      if exists id :: id in vehicles && vehicles[id].model == v.model {
        r := Failure(Storage(IntegrityError));
        return;
      }
      var id := nextVehicleId;
      vehicles := vehicles[id := VehicleRow(brandId, v.model, v.year, v.color, v.price, now, now)];
      nextVehicleId := id + 1;
      r := Success(VE.Vehicle(Some(id), v.brandName, v.model, v.year, v.color, v.price, None));
    }

    /** update: overwrite row `vehicle_id` and return it as re-read. */
    method Update(vid: int, v: VE.Vehicle, now: Timestamp) returns (r: Result<VE.Vehicle, Error>)
      requires Valid() && VE.Valid(v)
      modifies this
      ensures Valid()
      ensures State() == UpdateOn(old(State()), vid, v, now).tables
      ensures r == UpdateOn(old(State()), vid, v, now).result
    {
      var brandId := ResolveBrandId(v.brandName, now);
      if vid !in vehicles {
        r := Failure(AttributeError(NoRowAttribute));
        return;
      }
      if exists id :: id in vehicles && id != vid && vehicles[id].model == v.model {
        r := Failure(Storage(IntegrityError));
        return;
      }
      var row := vehicles[vid].(brandId := brandId, model := v.model, year := v.year,
                                color := v.color, price := v.price, updatedAt := now);
      vehicles := vehicles[vid := row];
      r := Success(ToEntity(vid, row, brands[brandId], None));
    }

    /** get: the stored vehicle, or ValueError when absent. */
    method Get(vid: int) returns (r: Result<VE.Vehicle, Error>)
      requires Valid()
      ensures r == GetOn(State(), vid)
    {
      if vid !in vehicles {
        r := Failure(ValueError(NotFoundMessage(vid)));
      } else {
        var row := vehicles[vid];
        r := Success(ToEntity(vid, row, brands[row.brandId], None));
      }
    }

    /** The order id of the vehicle's record, if it has one. */
    method FindSale(vid: int) returns (o: Option<int>)
      requires Valid()
      ensures o.None? <==> !HasSale(State(), vid)
      ensures o.Some? ==> o.value == SaleOf(State(), vid)
    {
      if exists k :: k in sales && sales[k].vehicleId == vid {
        var k :| k in sales && sales[k].vehicleId == vid;
        o := Some(k);
      } else {
        o := None;
      }
    }

    /** get_with_sold: the vehicle with its sale record, or None. */
    method GetWithSold(vid: int) returns (r: Option<StoredVehicle>)
      requires Valid()
      ensures r == GetWithSoldOn(State(), vid)
    {
      if vid !in vehicles {
        return None;
      }
      var row := vehicles[vid];
      var o := FindSale(vid);
      var sale := if o.Some? then Some((o.value, sales[o.value])) else None;
      r := Some(StoredVehicle(vid, row, brands[row.brandId], sale));
    }

    /** The entity a listing shows for vehicle `id`. */
    method ListedEntity(id: int, withSale: bool) returns (v: VE.Vehicle)
      requires Valid() && id in vehicles && HasSale(State(), id) == withSale
      requires withSale ==> AllConfirmed(State())
      ensures withSale ==> v == SoldListing(State())[id]
      ensures !withSale ==> v == AvailableListing(State())[id]
    {
      var row := vehicles[id];
      if withSale {
        var o := FindSale(id);
        v := ToEntity(id, row, brands[row.brandId], Some(ToSoldEntity(o.value, sales[o.value])));
      } else {
        v := ToEntity(id, row, brands[row.brandId], None);
      }
    }

    /** The ids of the vehicles with (or without) a sale record. */
    method ListedIds(withSale: bool) returns (ids: set<int>)
      requires Valid()
      ensures ids == if withSale then SoldIds(State()) else AvailableIds(State())
    {
      ids := set id | id in vehicles && (exists o :: o in sales && sales[o].vehicleId == id) == withSale;
    }

    /** The vehicles with (or without) a sale record, ordered by price. */
    method ListByPrice(withSale: bool) returns (r: seq<VE.Vehicle>)
      requires Valid()
      requires withSale ==> AllConfirmed(State())
      ensures withSale ==> IsListing(r, SoldListing(State()))
      ensures !withSale ==> IsListing(r, AvailableListing(State()))
    {
      ghost var m := if withSale then SoldListing(State()) else AvailableListing(State());
      var todo := ListedIds(withSale);
      r := [];
      while todo != {}
        invariant todo <= m.Keys
        invariant PartialListing(r, m, todo)
        decreases todo
      {
        var id :| id in todo;
        var v := ListedEntity(id, withSale);
        var k := InsertionPoint(r, v.price);
        InsertKeepsListing(r, m, todo, id, k);
        r := r[..k] + [v] + r[k..];
        todo := todo - {id};
      }
    }

    /** get_all_available: the vehicles with no sale record, cheapest first, sold = None. */
    method GetAllAvailable() returns (r: seq<VE.Vehicle>)
      requires Valid()
      ensures IsListing(r, AvailableListing(State()))
    {
      r := ListByPrice(false);
    }

    /**
     * get_all_sold: the vehicles with a sale record, cheapest first, each
     * embedding its record; `sold_date.isoformat()` raises on a record
     * without a date.
     */
    method GetAllSold() returns (r: Result<seq<VE.Vehicle>, Error>)
      requires Valid()
      ensures r.Failure? <==> exists o :: o in sales && sales[o].soldDate.None?
      ensures r.Failure? ==> r.error == AttributeError(NoIsoformatAttribute)
      ensures r.Success? ==> AllConfirmed(State()) && IsListing(r.value, SoldListing(State()))
    {
      if exists o :: o in sales && sales[o].soldDate.None? {
        return Failure(AttributeError(NoIsoformatAttribute));
      }
      var listed := ListByPrice(true);
      r := Success(listed);
    }

    /**
     * initialize_sale: add a record at the vehicle's current price. The
     * adapter does not look for an existing record; the precondition that
     * there is none is what keeps one record per vehicle.
     */
    method InitializeSale(vid: int, userId: string, now: Timestamp)
      requires Valid() && vid in vehicles && !HasSale(State(), vid)
      modifies this
      ensures Valid()
      ensures State() == InitializeSaleOn(old(State()), vid, userId, now)
    {
      var o := nextOrderId;
      sales := sales[o := SaleRow(vid, None, vehicles[vid].price, None, userId, now, now)];
      nextOrderId := o + 1;
    }

    /** confirm_sale: mark the vehicle's records sold, at its current price, dated now. */
    method ConfirmSale(vid: int, now: Timestamp)
      requires Valid() && vid in vehicles
      modifies this
      ensures Valid()
      ensures State() == ConfirmSaleOn(old(State()), vid, now)
    {
      var price := vehicles[vid].price;
      sales := map o | o in sales :: if sales[o].vehicleId == vid then Confirm(sales[o], price, now) else sales[o];
    }

    /** revert_sale: delete the vehicle's record if its status is "sold", else ValueError. */
    method RevertSale(vid: int) returns (r: Result<(), Error>)
      requires Valid()
      modifies this
      ensures Valid()
      ensures State() == RevertSaleOn(old(State()), vid).tables
      ensures r == RevertSaleOn(old(State()), vid).result
    {
      var o := FindSale(vid);
      if o.None? || sales[o.value].status != Some(SoldStatus) {
        r := Failure(ValueError(RevertMessage(vid)));
        return;
      }
      sales := sales - {o.value};
      r := Success(());
    }
  }

  /** What `vehicle.sold.sold_date.isoformat()` raises on a record without a date. */
  const NoIsoformatAttribute := "'NoneType' object has no attribute 'isoformat'"

  /** The first index whose price exceeds `price`, in a price-ordered listing. */
  method InsertionPoint(r: seq<VE.Vehicle>, price: int) returns (k: nat)
    requires SortedByPrice(r)
    ensures k <= |r|
    ensures forall i :: 0 <= i < k ==> r[i].price <= price
    ensures forall i :: k <= i < |r| ==> r[i].price > price
  {
    k := 0;
    while k < |r| && r[k].price <= price
      invariant k <= |r|
      invariant forall i :: 0 <= i < k ==> r[i].price <= price
    {
      k := k + 1;
    }
  }

  /** `r` lists exactly the entities of `m` outside `todo`, each once, by price. */
  ghost predicate PartialListing(r: seq<VE.Vehicle>, m: map<int, VE.Vehicle>, todo: set<int>) {
    && (forall i :: 0 <= i < |r| ==>
          r[i].id.Some? && r[i].id.value in m && r[i].id.value !in todo && m[r[i].id.value] == r[i])
    && (forall id :: id in m && id !in todo ==> m[id] in r)
    && (forall i, j :: 0 <= i < j < |r| ==> r[i].id != r[j].id)
    && SortedByPrice(r)
  }

  /** Inserting a pending entity at its price position extends the partial listing. */
  lemma InsertKeepsListing(r: seq<VE.Vehicle>, m: map<int, VE.Vehicle>, todo: set<int>, id: int, k: nat)
    requires PartialListing(r, m, todo) && id in todo && id in m && m[id].id == Some(id)
    requires k <= |r|
    requires forall i :: 0 <= i < k ==> r[i].price <= m[id].price
    requires forall i :: k <= i < |r| ==> r[i].price > m[id].price
    ensures PartialListing(r[..k] + [m[id]] + r[k..], m, todo - {id})
  {
    var v := m[id];
    var r' := r[..k] + [v] + r[k..];
    InsertedAt(r, v, k, r');
    forall i, j | 0 <= i < j < |r'| ensures r'[i].id != r'[j].id {
      if i != k && j != k {
        var i0 := if i < k then i else i - 1;
        var j0 := if j < k then j else j - 1;
        assert r'[i] == r[i0] && r'[j] == r[j0];
      }
    }
  }

  /** The elements of `r[..k] + [v] + r[k..]` by position. */
  lemma InsertedAt(r: seq<VE.Vehicle>, v: VE.Vehicle, k: nat, r': seq<VE.Vehicle>)
    requires k <= |r| && r' == r[..k] + [v] + r[k..]
    ensures |r'| == |r| + 1 && r'[k] == v
    ensures forall i :: 0 <= i < k ==> r'[i] == r[i]
    ensures forall i :: k < i < |r'| ==> r'[i] == r[i - 1]
    ensures forall x :: x in r' <==> x in r || x == v
  {
    forall x | x in r ensures x in r' {
      var i :| 0 <= i < |r| && r[i] == x;
      if i < k { assert r'[i] == x; } else { assert r'[i + 1] == x; }
    }
  }
}
