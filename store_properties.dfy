/**
 * Properties of the store operations of `RepositorySpec` that relate
 * several calls or compare a result with the tables before the call: what
 * save and update write, what the lookups return, and the sale record's
 * lifecycle (initialize_sale, confirm_sale, revert_sale).
 */
module StoreProperties {
  import opened Wrappers
  import opened Fields
  import opened Schema
  import opened Exceptions
  import opened RepositorySpec
  import opened OrmExceptions
  import opened ExceptionHandler
  import VE = VehicleEntity

  // ------------------------------------------------------------ save, update

  /**
   * save inserts exactly one vehicle under a fresh id unless the model is
   * taken; it returns the input with that id, which get then returns too.
   * A brand is created only when no brand has the name, and survives a
   * failing insert.
   */
  lemma SaveSpec(t: Tables, v: VE.Vehicle, now: Timestamp)
    requires Valid(t) && VE.Valid(v)
    ensures var s := SaveOn(t, v, now);
      && (s.result.Success? <==> !ModelTaken(t, v.model))
      && s.tables.sales == t.sales
      && (forall id :: id in t.vehicles ==> id in s.tables.vehicles && s.tables.vehicles[id] == t.vehicles[id])
      && (forall b :: b in t.brands ==> b in s.tables.brands && s.tables.brands[b] == t.brands[b])
      && (GetBrandOn(t, v.brandName).Some? ==> s.tables.brands == t.brands)
      && GetBrandOn(s.tables, v.brandName).Some?
    ensures var s := SaveOn(t, v, now);
      s.result.Success? ==>
        && s.result.value == v.(id := s.result.value.id, sold := None)
        && s.result.value.id.Some?
        && s.result.value.id.value !in t.vehicles
        && s.tables.vehicles.Keys == t.vehicles.Keys + {s.result.value.id.value}
        && GetOn(s.tables, s.result.value.id.value) == s.result
    ensures var s := SaveOn(t, v, now);
      s.result.Failure? ==> s.result.error == Storage(IntegrityError) && s.tables.vehicles == t.vehicles
  {
    var b := ResolveBrand(t, v.brandName, now);
    var s := SaveOn(t, v, now);
    assert ModelTaken(b.tables, v.model) == ModelTaken(t, v.model);
    if s.result.Success? {
      var id := b.tables.nextVehicleId;
      assert id !in t.vehicles;
      assert s.tables.vehicles == t.vehicles[id := VehicleRow(b.result, v.model, v.year, v.color, v.price, now, now)];
    }
  }

  /**
   * update fails with AttributeError on an unknown id and with a storage
   * error when another vehicle has the model; otherwise it rewrites row
   * `vid` alone, keeping its creation time, and returns what get returns.
   */
  lemma UpdateSpec(t: Tables, vid: int, v: VE.Vehicle, now: Timestamp)
    requires Valid(t) && VE.Valid(v)
    ensures var s := UpdateOn(t, vid, v, now);
      && (s.result.Success? <==> vid in t.vehicles && !ModelTakenByOther(t, v.model, vid))
      && s.tables.sales == t.sales
      && s.tables.vehicles.Keys == t.vehicles.Keys
      && (forall id :: id in t.vehicles && id != vid ==> s.tables.vehicles[id] == t.vehicles[id])
      && (forall b :: b in t.brands ==> b in s.tables.brands && s.tables.brands[b] == t.brands[b])
      && (GetBrandOn(t, v.brandName).Some? ==> s.tables.brands == t.brands)
      && GetBrandOn(s.tables, v.brandName).Some?
    ensures var s := UpdateOn(t, vid, v, now);
      s.result.Success? ==>
        && s.result.value == v.(id := Some(vid), sold := None)
        && s.tables.vehicles[vid].createdAt == t.vehicles[vid].createdAt
        && s.tables.vehicles[vid].updatedAt == now
        && GetOn(s.tables, vid) == s.result
    ensures var s := UpdateOn(t, vid, v, now);
      && (vid !in t.vehicles ==> s.result == Failure(AttributeError(NoRowAttribute)))
      && (vid in t.vehicles && ModelTakenByOther(t, v.model, vid) ==> s.result == Failure(Storage(IntegrityError)))
      && (s.result.Failure? ==> s.tables.vehicles == t.vehicles)
  {
    var b := ResolveBrand(t, v.brandName, now);
    assert ModelTakenByOther(b.tables, v.model, vid) == ModelTakenByOther(t, v.model, vid);
  }

  /** get and get_with_sold find the same vehicles, and agree on their fields. */
  lemma LookupsAgree(t: Tables, vid: int)
    requires Valid(t)
    ensures GetWithSoldOn(t, vid).Some? <==> GetOn(t, vid).Success?
    ensures GetWithSoldOn(t, vid).Some? ==>
      var w := GetWithSoldOn(t, vid).value;
      GetOn(t, vid).value == ToEntity(w.id, w.row, w.brand, None)
  {
  }

  /**
   * The entity get builds from a stored row passes the entity's own
   * validation: `Vehicle(**fields)` of that row accepts.
   */
  lemma StoredVehiclesRevalidate(t: Tables, vid: int)
    requires Valid(t) && vid in t.vehicles
    ensures VE.Create(VE.PayloadOf(GetOn(t, vid).value)).Success?
    ensures VE.Create(VE.PayloadOf(GetOn(t, vid).value)).value == GetOn(t, vid).value.(id := None)
  {
    VE.CreateOfPayload(GetOn(t, vid).value);
  }

  // ---------------------------------------------------------------- listings

  /** Every stored vehicle is listed by exactly one of get_all_available and get_all_sold. */
  lemma ListingsPartition(t: Tables)
    requires Valid(t)
    ensures AvailableIds(t) + SoldIds(t) == t.vehicles.Keys
    ensures AvailableIds(t) * SoldIds(t) == {}
    ensures AvailableListing(t).Keys == AvailableIds(t)
    ensures forall id :: id in AvailableListing(t) ==> AvailableListing(t)[id] == GetOn(t, id).value
    ensures AllConfirmed(t) ==> SoldListing(t).Keys == SoldIds(t)
    ensures AllConfirmed(t) ==> forall id :: id in SoldListing(t) ==>
      var e := SoldListing(t)[id];
      && e.(sold := None) == GetOn(t, id).value
      && e.sold.Some? && e.sold.value.vehicleId == id
      && e.sold.value.status == SoldStatus
  {
  }

  // ------------------------------------------------------------------ sales

  /**
   * initialize_sale on a vehicle with no record adds one draft record for
   * it under a fresh order id, moving the vehicle from the available to the
   * sold listing, and changes nothing else.
   */
  lemma InitializeCreatesDraft(t: Tables, vid: int, userId: string, now: Timestamp)
    requires Valid(t) && vid in t.vehicles && !HasSale(t, vid)
    ensures var t' := InitializeSaleOn(t, vid, userId, now);
      && HasSale(t', vid)
      && SaleOf(t', vid) !in t.sales
      && t'.sales == t.sales[SaleOf(t', vid) := SaleRow(vid, None, t.vehicles[vid].price, None, userId, now, now)]
      && Draft(t'.sales[SaleOf(t', vid)])
      && t'.vehicles == t.vehicles && t'.brands == t.brands
      && AvailableIds(t') == AvailableIds(t) - {vid}
      && SoldIds(t') == SoldIds(t) + {vid}
  {
    var t' := InitializeSaleOn(t, vid, userId, now);
    var o := t.nextOrderId;
    assert t'.sales[o].vehicleId == vid;
    assert SaleOf(t', vid) == o;
    forall id | id != vid ensures HasSale(t', id) == HasSale(t, id) {
      if HasSale(t', id) {
        var k := SaleOf(t', id);
        assert k != o && t.sales[k].vehicleId == id;
      }
      if HasSale(t, id) {
        var k := SaleOf(t, id);
        assert k != o && t'.sales[k].vehicleId == id;
      }
    }
  }

  /**
   * Without the "no record yet" precondition, initialize_sale gives the
   * vehicle a second record: the adapter itself does not keep one record
   * per vehicle.
   */
  lemma InitializeTwiceBreaksOneRecord(t: Tables, vid: int, userId: string, now: Timestamp)
    requires Valid(t) && vid in t.vehicles && HasSale(t, vid)
    ensures !AtMostOneSale(InitializeSaleOn(t, vid, userId, now))
  {
    var t' := InitializeSaleOn(t, vid, userId, now);
    var o := SaleOf(t, vid);
    assert o != t.nextOrderId && t'.sales[o].vehicleId == t'.sales[t.nextOrderId].vehicleId;
  }

  /**
   * confirm_sale marks the vehicle's record sold at the vehicle's current
   * price, dated `now`; with no record it changes nothing and does not fail.
   * No other record and no vehicle changes.
   */
  lemma ConfirmSetsSold(t: Tables, vid: int, now: Timestamp)
    requires Valid(t) && vid in t.vehicles
    ensures var t' := ConfirmSaleOn(t, vid, now);
      && (!HasSale(t, vid) ==> t' == t)
      && (HasSale(t, vid) ==>
            && HasSale(t', vid) && SaleOf(t', vid) == SaleOf(t, vid)
            && t'.sales == t.sales[SaleOf(t, vid) := Confirm(t.sales[SaleOf(t, vid)], t.vehicles[vid].price, now)]
            && Confirmed(t'.sales[SaleOf(t, vid)])
            && t'.sales[SaleOf(t, vid)].soldPrice == t.vehicles[vid].price
            && t'.sales[SaleOf(t, vid)].soldDate == Some(now))
      && t'.vehicles == t.vehicles && t'.brands == t.brands
      && AvailableIds(t') == AvailableIds(t)
  {
    var t' := ConfirmSaleOn(t, vid, now);
    var price := t.vehicles[vid].price;
    assert t'.sales.Keys == t.sales.Keys;
    if !HasSale(t, vid) {
      forall k | k in t.sales ensures t'.sales[k] == t.sales[k] {
        assert t.sales[k].vehicleId != vid;
      }
    } else {
      var o := SaleOf(t, vid);
      forall k | k in t.sales && k != o ensures t'.sales[k] == t.sales[k] {
        assert t.sales[k].vehicleId != vid;
      }
      assert t'.sales == t.sales[o := Confirm(t.sales[o], price, now)];
      assert t'.sales[o].vehicleId == vid;
    }
    forall id ensures HasSale(t', id) == HasSale(t, id) {
      if HasSale(t, id) {
        var k := SaleOf(t, id);
        assert t'.sales[k].vehicleId == id;
      }
    }
  }

  /**
   * revert_sale succeeds exactly when the vehicle's record has status
   * "sold"; it then deletes that record alone and the vehicle is available
   * again. On failure the store is unchanged.
   */
  lemma RevertIff(t: Tables, vid: int)
    requires Valid(t)
    ensures var s := RevertSaleOn(t, vid);
      && (s.result.Success? <==> HasSale(t, vid) && t.sales[SaleOf(t, vid)].status == Some(SoldStatus))
      && (s.result.Failure? ==> s.tables == t && s.result.error == ValueError(RevertMessage(vid)))
      && s.tables.vehicles == t.vehicles && s.tables.brands == t.brands
    ensures var s := RevertSaleOn(t, vid);
      s.result.Success? ==>
        && s.tables.sales == t.sales - {SaleOf(t, vid)}
        && !HasSale(s.tables, vid)
        && vid in AvailableIds(s.tables)
        && AvailableIds(s.tables) == AvailableIds(t) + {vid}
  {
    var s := RevertSaleOn(t, vid);
    if s.result.Success? {
      var o := SaleOf(t, vid);
      forall id ensures HasSale(s.tables, id) == (HasSale(t, id) && id != vid) {
        if HasSale(t, id) && id != vid {
          var k := SaleOf(t, id);
          assert k != o && s.tables.sales[k].vehicleId == id;
        }
      }
    }
  }

  /** A sale that was initialized but not confirmed cannot be reverted: its status is absent. */
  lemma DraftCannotBeReverted(t: Tables, vid: int, userId: string, now: Timestamp)
    requires Valid(t) && vid in t.vehicles && !HasSale(t, vid)
    ensures var t' := InitializeSaleOn(t, vid, userId, now);
      RevertSaleOn(t', vid) == Step(t', Failure(ValueError(RevertMessage(vid))))
  {
    InitializeCreatesDraft(t, vid, userId, now);
  }

  /**
   * initialize_sale, confirm_sale and revert_sale in turn leave the
   * vehicle, brand and sale tables as they were; only the order-id sequence
   * has moved on.
   */
  lemma SaleRoundTrip(t: Tables, vid: int, userId: string, t1: Timestamp, t2: Timestamp)
    requires Valid(t) && vid in t.vehicles && !HasSale(t, vid)
    ensures var a := InitializeSaleOn(t, vid, userId, t1);
      var b := ConfirmSaleOn(a, vid, t2);
      var c := RevertSaleOn(b, vid);
      && c.result == Success(())
      && c.tables == t.(nextOrderId := t.nextOrderId + 1)
      && AvailableIds(c.tables) == AvailableIds(t)
  {
    var a := InitializeSaleOn(t, vid, userId, t1);
    InitializeCreatesDraft(t, vid, userId, t1);
    var o := SaleOf(a, vid);
    ConfirmSetsSold(a, vid, t2);
    var b := ConfirmSaleOn(a, vid, t2);
    RevertIff(b, vid);
    var c := RevertSaleOn(b, vid);
    assert c.tables.sales == t.sales;
    assert AvailableIds(c.tables) == AvailableIds(t) by {
      forall id ensures HasSale(c.tables, id) == HasSale(t, id) {}
    }
  }

  // ------------------------------------------------------- errors in transit

  /** A get on an unknown id reaches the HTTP caller as 400 under the ValueError clause, not 404. */
  lemma NotFoundIsBadRequest(t: Tables, vid: int)
    requires Valid(t) && vid !in t.vehicles
    ensures HttpExceptionHandler(GetOn(t, vid)) ==
      Responded(Response(400, [("   message", Text("Key error")), ("error", Text(NotFoundMessage(vid)))]))
  {
  }

  /**
   * create_vehicle_controller.py and update_vehicle_controller.py apply
   * `http_exception_handler` alone, so the IntegrityError of a taken model
   * is not translated: it falls to the last clause and reaches the HTTP
   * caller as 500 "An error occurred", not as 409.
   */
  lemma DuplicateModelIsServerError(t: Tables, v: VE.Vehicle, vid: int, now: Timestamp)
    requires Valid(t) && VE.Valid(v)
    ensures ModelTaken(t, v.model) ==>
      HttpExceptionHandler(SaveOn(t, v, now).result.Discard()) ==
        Responded(Response(500, [("message", Text("An error occurred"))]))
    ensures vid in t.vehicles && ModelTakenByOther(t, v.model, vid) ==>
      HttpExceptionHandler(UpdateOn(t, vid, v, now).result.Discard()) ==
        Responded(Response(500, [("message", Text("An error occurred"))]))
  {
    SaveSpec(t, v, now);
    UpdateSpec(t, vid, v, now);
  }

  /**
   * Only under both decorators, as the three sale-side controllers stack
   * them, does the same IntegrityError become 409 "Vehicle already exists".
   */
  lemma DuplicateModelUnderBothDecorators(t: Tables, v: VE.Vehicle, now: Timestamp)
    requires Valid(t) && VE.Valid(v) && ModelTaken(t, v.model)
    ensures HttpExceptionHandler(HandleSqlAlchemyExceptions(SaveOn(t, v, now).result)) ==
      Responded(Response(409, [("message", Text("Vehicle already exists")), ("error", Text("Vehicle already exists"))]))
  {
    SaveSpec(t, v, now);
  }
}
