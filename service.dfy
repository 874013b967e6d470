/**
 * VehicleService of vehicle/application/services/vehicle_service.py: it
 * validates a payload through the Vehicle entity and hands the entity to
 * the repository once, or passes a read straight through. It keeps no
 * state but the repository.
 */
module Service {
  import opened Wrappers
  import opened Fields
  import opened Exceptions
  import opened RepositorySpec
  import opened Repository
  import VE = VehicleEntity

  class VehicleService {
    const repository: VehicleRepositoryAdapter

    constructor (repository: VehicleRepositoryAdapter)
      ensures this.repository == repository
    {
      this.repository := repository;
    }

    /**
     * register_vehicle: `Vehicle(**vehicle_data)`, then one `save`. Invalid
     * data raises the validation error before the store is touched; the
     * method returns nothing, so save's result is dropped but its errors
     * propagate.
     */
    method RegisterVehicle(data: Payload, now: Timestamp) returns (r: Result<(), Error>)
      requires repository.Valid()
      modifies repository
      ensures repository.Valid()
      ensures VE.Create(data).Failure? ==>
        && r == Failure(ValidationError(VE.Create(data).error))
        && repository.State() == old(repository.State())
      ensures VE.Create(data).Success? ==>
        && repository.State() == SaveOn(old(repository.State()), VE.Create(data).value, now).tables
        && r == SaveOn(old(repository.State()), VE.Create(data).value, now).result.Discard()
    {
      var vehicle := VE.Create(data);
      if vehicle.Failure? {
        return Failure(ValidationError(vehicle.error));
      }
      var saved := repository.Save(vehicle.value, now);
      r := saved.Discard();
    }

    /** update_vehicle: `Vehicle(**vehicle_data)`, then one `update(vehicle_id, vehicle)`. */
    method UpdateVehicle(vid: int, data: Payload, now: Timestamp) returns (r: Result<(), Error>)
      requires repository.Valid()
      modifies repository
      ensures repository.Valid()
      ensures VE.Create(data).Failure? ==>
        && r == Failure(ValidationError(VE.Create(data).error))
        && repository.State() == old(repository.State())
      ensures VE.Create(data).Success? ==>
        && repository.State() == UpdateOn(old(repository.State()), vid, VE.Create(data).value, now).tables
        && r == UpdateOn(old(repository.State()), vid, VE.Create(data).value, now).result.Discard()
    {
      var vehicle := VE.Create(data);
      if vehicle.Failure? {
        return Failure(ValidationError(vehicle.error));
      }
      var updated := repository.Update(vid, vehicle.value, now);
      r := updated.Discard();
    }

    /** get: the repository's answer, unchanged. */
    method Get(vid: int) returns (r: Result<VE.Vehicle, Error>)
      requires repository.Valid()
      ensures r == GetOn(repository.State(), vid)
      ensures r.Success? <==> vid in repository.vehicles
    {
      r := repository.Get(vid);
    }

    /** get_all_available: the repository's listing, unchanged. */
    method GetAllAvailable() returns (r: seq<VE.Vehicle>)
      requires repository.Valid()
      ensures IsListing(r, AvailableListing(repository.State()))
    {
      r := repository.GetAllAvailable();
    }
  }
}
