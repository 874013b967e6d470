/**
 * What each method of VehicleRepositoryAdapter
 * (vehicle/adapters/repositories/vehicle_repository_adapter.py) does to the
 * tables, as functions of the tables before the call. Each method is one
 * atomic update; the adapter methods in `Repository` are proved to perform
 * exactly these updates.
 */
module RepositorySpec {
  import opened Wrappers
  import opened Fields
  import opened Schema
  import opened Exceptions
  import VE = VehicleEntity
  import SE = SoldEntity

  const SoldStatus := "sold"

  /** The adapter treats `vehicle.sold` as one record: no vehicle has two. */
  ghost predicate AtMostOneSale(t: Tables) {
    forall a, b :: a in t.sales && b in t.sales && t.sales[a].vehicleId == t.sales[b].vehicleId ==> a == b
  }

  predicate ValidRow(r: VehicleRow) {
    VE.ValidModel(r.model) && VE.ValidYear(r.year) && VE.ValidColor(r.color) && VE.ValidPrice(r.price)
  }

  /** Every row was written from a validated entity. */
  ghost predicate RowsValid(t: Tables) {
    && (forall id :: id in t.brands ==> VE.ValidBrandName(t.brands[id].name))
    && (forall id :: id in t.vehicles ==> ValidRow(t.vehicles[id]))
  }

  /** Written by initialize_sale: no status and no date yet. */
  predicate Draft(r: SaleRow) {
    r.status == None && r.soldDate == None
  }

  /** Written by confirm_sale: status "sold" and a date. */
  predicate Confirmed(r: SaleRow) {
    r.status == Some(SoldStatus) && r.soldDate.Some?
  }

  ghost predicate SalesCoherent(t: Tables) {
    forall o :: o in t.sales ==> Draft(t.sales[o]) || Confirmed(t.sales[o])
  }

  /** The store invariant: the schema's constraints and what the adapter relies on. */
  ghost predicate Valid(t: Tables) {
    Consistent(t) && AtMostOneSale(t) && RowsValid(t) && SalesCoherent(t)
  }

  /** `vehicle.sold` is not None. */
  ghost predicate HasSale(t: Tables, vid: int) {
    exists o :: o in t.sales && t.sales[o].vehicleId == vid
  }

  /** The order id of the vehicle's sale record (`.first()`; the only one under Valid). */
  ghost function SaleOf(t: Tables, vid: int): (o: int)
    requires HasSale(t, vid)
    ensures o in t.sales && t.sales[o].vehicleId == vid
  {
    var o :| o in t.sales && t.sales[o].vehicleId == vid; o
  }

  /** `VehicleEntity(id=..., brand_name=vehicle.brand.name, ...)` built from a row. */
  function ToEntity(id: int, row: VehicleRow, brand: BrandRow, sold: Option<SE.VehicleSold>): VE.Vehicle {
    VE.Vehicle(Some(id), brand.name, row.model, row.year, row.color, row.price, sold)
  }

  /** `VehicleSoldEntity(...)` built from a confirmed record, as get_all_sold builds it. */
  function ToSoldEntity(orderId: int, row: SaleRow): SE.VehicleSold
    requires Confirmed(row)
  {
    SE.VehicleSold(Some(orderId), row.vehicleId, row.status.value, row.soldPrice, row.soldDate,
                   row.userId, None, None)
  }

  /** The entity get, get_all_available and update return for a stored vehicle. */
  ghost function EntityOf(t: Tables, id: int): VE.Vehicle
    requires Valid(t) && id in t.vehicles
  {
    ToEntity(id, t.vehicles[id], t.brands[t.vehicles[id].brandId], None)
  }

  // ---------------------------------------------------------------- brands

  /** get_brand: the brand whose name is exactly `name`, if there is one. */
  ghost function GetBrandOn(t: Tables, name: string): (r: Option<int>)
    ensures r.Some? ==> r.value in t.brands && t.brands[r.value].name == name
    ensures r.None? ==> forall id :: id in t.brands ==> t.brands[id].name != name
  {
    if exists id :: id in t.brands && t.brands[id].name == name then
      var id :| id in t.brands && t.brands[id].name == name; Some(id)
    else
      None
  }

  /** A table update together with what the method returns or raises. */
  datatype Step<T> = Step(tables: Tables, result: T)

  /** create_brand: insert a brand; the unique name makes the commit fail when it is taken. */
  ghost function CreateBrandOn(t: Tables, name: string, now: Timestamp): (s: Step<Result<int, Error>>)
    requires Valid(t) && VE.ValidBrandName(name)
    ensures Valid(s.tables)
    ensures s.tables.vehicles == t.vehicles && s.tables.sales == t.sales
    ensures s.result.Success? <==> GetBrandOn(t, name).None?
    ensures s.result.Success? ==>
      && s.result.value !in t.brands
      && s.tables.brands == t.brands[s.result.value := BrandRow(name, now, now)]
    ensures s.result.Failure? ==> s.tables == t && s.result.error == Storage(IntegrityError)
  {
    if GetBrandOn(t, name).Some? then
      Step(t, Failure(Storage(IntegrityError)))
    else
      var id := t.nextBrandId;
      BrandInsertConsistent(t, BrandRow(name, now, now));
      Step(t.(brands := t.brands[id := BrandRow(name, now, now)], nextBrandId := id + 1), Success(id))
  }

  /** The first lines of save and update: look the brand up by name, create it if absent. */
  ghost function ResolveBrand(t: Tables, name: string, now: Timestamp): (s: Step<int>)
    requires Valid(t) && VE.ValidBrandName(name)
    ensures Valid(s.tables)
    ensures s.tables.vehicles == t.vehicles && s.tables.sales == t.sales
    ensures s.result in s.tables.brands && s.tables.brands[s.result].name == name
    ensures GetBrandOn(t, name).Some? ==> s.tables == t && s.result == GetBrandOn(t, name).value
    ensures GetBrandOn(t, name).None? ==>
      s.result !in t.brands && s.tables.brands == t.brands[s.result := BrandRow(name, now, now)]
  {
    match GetBrandOn(t, name)
    case Some(id) => Step(t, id)
    case None =>
      var c := CreateBrandOn(t, name, now);
      Step(c.tables, c.result.value)
  }

  // -------------------------------------------------------------- vehicles

  /** Some stored vehicle already has this model. */
  ghost predicate ModelTaken(t: Tables, model: string) {
    exists id :: id in t.vehicles && t.vehicles[id].model == model
  }

  /** Some stored vehicle other than `vid` has this model. */
  ghost predicate ModelTakenByOther(t: Tables, model: string, vid: int) {
    exists id :: id in t.vehicles && id != vid && t.vehicles[id].model == model
  }

  /**
   * save: resolve the brand (committed on its own), then insert the vehicle
   * under a fresh id; a taken model makes that insert's commit fail.
   */
  ghost function SaveOn(t: Tables, v: VE.Vehicle, now: Timestamp): (s: Step<Result<VE.Vehicle, Error>>)
    requires Valid(t) && VE.Valid(v)
    ensures Valid(s.tables)
  {
    var b := ResolveBrand(t, v.brandName, now);
    var t1 := b.tables;
    if ModelTaken(t1, v.model) then
      Step(t1, Failure(Storage(IntegrityError)))
    else
      var id := t1.nextVehicleId;
      var row := VehicleRow(b.result, v.model, v.year, v.color, v.price, now, now);
      VehicleInsertConsistent(t1, row);
      Step(t1.(vehicles := t1.vehicles[id := row], nextVehicleId := id + 1),
           Success(VE.Vehicle(Some(id), v.brandName, v.model, v.year, v.color, v.price, None)))
  }

  /** The message `f'Vehicle with id {vehicle_id} not found'`. */
  function NotFoundMessage(vid: int): string {
    "Vehicle with id " + Decimal(vid) + " not found"
  }

  /** What `updated_vehicle.id` raises when the re-read finds no row. */
  const NoRowAttribute := "'NoneType' object has no attribute 'id'"

  /**
   * update: resolve the brand, overwrite the five columns of row `vid` (no
   * row when `vid` is unknown), then re-read the row.
   */
  ghost function UpdateOn(t: Tables, vid: int, v: VE.Vehicle, now: Timestamp): (s: Step<Result<VE.Vehicle, Error>>)
    requires Valid(t) && VE.Valid(v)
    ensures Valid(s.tables)
  {
    var b := ResolveBrand(t, v.brandName, now);
    var t1 := b.tables;
    if vid !in t1.vehicles then
      Step(t1, Failure(AttributeError(NoRowAttribute)))
    else if ModelTakenByOther(t1, v.model, vid) then
      Step(t1, Failure(Storage(IntegrityError)))
    else
      var row := t1.vehicles[vid].(brandId := b.result, model := v.model, year := v.year,
                                   color := v.color, price := v.price, updatedAt := now);
      var t2 := t1.(vehicles := t1.vehicles[vid := row]);
      Step(t2, Success(ToEntity(vid, row, t2.brands[b.result], None)))
  }

  /** get: the stored vehicle, or a ValueError when no row has the id. */
  ghost function GetOn(t: Tables, vid: int): (r: Result<VE.Vehicle, Error>)
    requires Valid(t)
    ensures r.Success? <==> vid in t.vehicles
    ensures r.Success? ==> VE.Valid(r.value) && r.value.id == Some(vid) && r.value.sold == None
    ensures r.Failure? ==> r.error == ValueError(NotFoundMessage(vid))
  {
    if vid in t.vehicles then Success(EntityOf(t, vid)) else Failure(ValueError(NotFoundMessage(vid)))
  }

  /** The ORM object get_with_sold returns: the row, its brand and its sale record if any. */
  datatype StoredVehicle = StoredVehicle(id: int, row: VehicleRow, brand: BrandRow, sale: Option<(int, SaleRow)>)

  /** get_with_sold: like get, but None instead of an error. */
  ghost function GetWithSoldOn(t: Tables, vid: int): (r: Option<StoredVehicle>)
    requires Valid(t)
    ensures r.Some? <==> vid in t.vehicles
    ensures r.Some? ==> r.value.id == vid && r.value.row == t.vehicles[vid]
    ensures r.Some? ==> (r.value.sale.Some? <==> HasSale(t, vid))
    ensures r.Some? && r.value.sale.Some? ==>
      r.value.sale.value.0 in t.sales && t.sales[r.value.sale.value.0] == r.value.sale.value.1
      && r.value.sale.value.1.vehicleId == vid
  {
    if vid !in t.vehicles then None
    else
      var row := t.vehicles[vid];
      var sale := if HasSale(t, vid) then Some((SaleOf(t, vid), t.sales[SaleOf(t, vid)])) else None;
      Some(StoredVehicle(vid, row, t.brands[row.brandId], sale))
  }

  // -------------------------------------------------------------- listings

  /** Vehicles with no sale record (`filter(Vehicle.sold == None)`). */
  ghost function AvailableIds(t: Tables): set<int> {
    set id | id in t.vehicles && !HasSale(t, id)
  }

  /** Vehicles with a sale record (`filter(Vehicle.sold != None)`). */
  ghost function SoldIds(t: Tables): set<int> {
    set id | id in t.vehicles && HasSale(t, id)
  }

  /** Every sale record is confirmed, so `sold_date.isoformat()` never meets None. */
  ghost predicate AllConfirmed(t: Tables) {
    forall o :: o in t.sales ==> Confirmed(t.sales[o])
  }

  /** What get_all_available lists for each available vehicle: its entity with sold = None. */
  ghost function AvailableListing(t: Tables): map<int, VE.Vehicle>
    requires Valid(t)
  {
    map id | id in AvailableIds(t) :: EntityOf(t, id)
  }

  /** What get_all_sold lists for each vehicle with a record: its entity embedding the record. */
  ghost function SoldListing(t: Tables): map<int, VE.Vehicle>
    requires Valid(t) && AllConfirmed(t)
  {
    map id | id in SoldIds(t) ::
      ToEntity(id, t.vehicles[id], t.brands[t.vehicles[id].brandId],
               Some(ToSoldEntity(SaleOf(t, id), t.sales[SaleOf(t, id)])))
  }

  predicate SortedByPrice(r: seq<VE.Vehicle>) {
    forall i, j :: 0 <= i < j < |r| ==> r[i].price <= r[j].price
  }

  /**
   * `r` lists the entities of `m` exactly: each once, nothing else, in
   * non-decreasing price order (the order among equal prices is the
   * database's and is left open).
   */
  ghost predicate IsListing(r: seq<VE.Vehicle>, m: map<int, VE.Vehicle>) {
    && (forall i :: 0 <= i < |r| ==> r[i].id.Some? && r[i].id.value in m && m[r[i].id.value] == r[i])
    && (forall id :: id in m ==> m[id] in r)
    && (forall i, j :: 0 <= i < j < |r| ==> r[i].id != r[j].id)
    && SortedByPrice(r)
  }

  // ----------------------------------------------------------------- sales

  /** initialize_sale: a new record for the vehicle, at its current price, with no status or date. */
  ghost function InitializeSaleOn(t: Tables, vid: int, userId: string, now: Timestamp): (r: Tables)
    requires vid in t.vehicles
    ensures Valid(t) && !HasSale(t, vid) ==> Valid(r)
  {
    var row := SaleRow(vid, None, t.vehicles[vid].price, None, userId, now, now);
    if Valid(t) && !HasSale(t, vid) then
      DraftInsertValid(t, row);
      t.(sales := t.sales[t.nextOrderId := row], nextOrderId := t.nextOrderId + 1)
    else
      t.(sales := t.sales[t.nextOrderId := row], nextOrderId := t.nextOrderId + 1)
  }

  /** A draft record for a vehicle with no record keeps the store invariant. */
  lemma DraftInsertValid(t: Tables, row: SaleRow)
    requires Valid(t) && row.vehicleId in t.vehicles && !HasSale(t, row.vehicleId) && Draft(row)
    ensures Valid(t.(sales := t.sales[t.nextOrderId := row], nextOrderId := t.nextOrderId + 1))
  {
    SaleInsertConsistent(t, row);
    var t' := t.(sales := t.sales[t.nextOrderId := row], nextOrderId := t.nextOrderId + 1);
    forall a, b | a in t'.sales && b in t'.sales && t'.sales[a].vehicleId == t'.sales[b].vehicleId
      ensures a == b
    {
      if a != t.nextOrderId && b != t.nextOrderId {
        assert t.sales[a].vehicleId == t.sales[b].vehicleId;
      }
    }
  }

  /** The columns confirm_sale writes into a record. */
  function Confirm(r: SaleRow, price: int, now: Timestamp): SaleRow {
    r.(status := Some(SoldStatus), soldPrice := price, soldDate := Some(now), updatedAt := now)
  }

  /** confirm_sale: a bulk update of every record of the vehicle; none is no error. */
  ghost function ConfirmSaleOn(t: Tables, vid: int, now: Timestamp): (r: Tables)
    requires vid in t.vehicles
    ensures Valid(t) ==> Valid(r)
  {
    var price := t.vehicles[vid].price;
    t.(sales := map o | o in t.sales ::
         if t.sales[o].vehicleId == vid then Confirm(t.sales[o], price, now) else t.sales[o])
  }

  /** The message of the ValueError revert_sale raises. */
  function RevertMessage(vid: int): string {
    "Error while reverting sale for vehicle " + Decimal(vid)
  }

  /** revert_sale: delete the record, but only a record whose status is "sold". */
  ghost function RevertSaleOn(t: Tables, vid: int): (s: Step<Result<(), Error>>)
    requires Valid(t)
    ensures Valid(s.tables)
  {
    if !HasSale(t, vid) || t.sales[SaleOf(t, vid)].status != Some(SoldStatus) then
      Step(t, Failure(ValueError(RevertMessage(vid))))
    else
      Step(t.(sales := t.sales - {SaleOf(t, vid)}), Success(()))
  }
}
