/** The fleet slice of the Redux store (src/store/slices/fleetSlice.ts): the vehicle table,
    the selected vehicle and the status/type filter lists, updated in place by its reducers. */
module FleetSlice {
  import opened Js
  import Seqs

  datatype Location = Location(lat: real, lng: real, address: string)

  datatype Specifications = Specifications(make: string, model: string, year: real, capacity: real, fuelType: string)

  datatype Documents = Documents(insurance: string, registration: string, permit: string)

  datatype VehiclePredictions = VehiclePredictions(breakdownRisk: real, fuelEfficiency: real, maintenanceNeeded: bool)

  datatype Vehicle = Vehicle(
    id: string,
    registrationNumber: string,
    vehicleType: string,
    status: string,
    driver: Option<string>,
    location: Location,
    fuelLevel: real,
    mileage: real,
    lastMaintenance: string,
    nextMaintenanceDate: string,
    specifications: Specifications,
    documents: Documents,
    aiPredictions: VehiclePredictions)

  /** The checkbox filters of the fleet screen; an empty list admits every value. */
  datatype Filters = Filters(status: seq<string>, vehicleType: seq<string>)

  /** The payload of `setFilters`, a `Partial<Filters>`: `None` is a key absent from the payload. */
  datatype FiltersPatch = FiltersPatch(status: Option<seq<string>>, vehicleType: Option<seq<string>>)

  function VehicleId(v: Vehicle): string
  {
    v.id
  }

  /** What `vehicle.location = location` does to the vehicle `find` returned. */
  function Relocated(loc: Location): Vehicle -> Vehicle
  {
    (v: Vehicle) => v.(location := loc)
  }

  /** `{ ...filters, ...patch }`: a key present in the patch overwrites, an absent key keeps its list. */
  function MergeFilters(f: Filters, p: FiltersPatch): (r: Filters)
    ensures p.status.Some? ==> r.status == p.status.value
    ensures p.status.None? ==> r.status == f.status
    ensures p.vehicleType.Some? ==> r.vehicleType == p.vehicleType.value
    ensures p.vehicleType.None? ==> r.vehicleType == f.vehicleType
  {
    Filters(
      if p.status.Some? then p.status.value else f.status,
      if p.vehicleType.Some? then p.vehicleType.value else f.vehicleType)
  }

  /** A later patch wins over an earlier one key by key, so two `setFilters` calls
      are one call with the combined patch. */
  lemma MergeFiltersTwice(f: Filters, p: FiltersPatch, q: FiltersPatch)
    ensures MergeFilters(MergeFilters(f, p), q) ==
            MergeFilters(f, FiltersPatch(
              if q.status.Some? then q.status else p.status,
              if q.vehicleType.Some? then q.vehicleType else p.vehicleType))
  {
  }

  /** A location update whose id names no vehicle leaves the table as it was. This is the case of
      the server's `vehicleLocationUpdate` payloads, which carry `vehicleId` and no `id`. */
  lemma {:induction false} RelocateUnknownIsNoOp(vs: seq<Vehicle>, id: string, loc: Location)
    requires forall i :: 0 <= i < |vs| ==> vs[i].id != id
    ensures Seqs.UpdateFirst(vs, VehicleId, id, Relocated(loc)) == vs
  {
    Seqs.UpdateFirstAtFindIndex(vs, VehicleId, id, Relocated(loc));
  }

  /** A location update changes the location of the first vehicle with that id and nothing else:
      every other vehicle, and every other field of that vehicle, is kept. */
  lemma RelocateChangesOnlyLocation(vs: seq<Vehicle>, id: string, loc: Location)
    ensures var r := Seqs.UpdateFirst(vs, VehicleId, id, Relocated(loc));
            var i := Seqs.FindIndex(vs, VehicleId, id);
            |r| == |vs| &&
            (forall j :: 0 <= j < |vs| && j != i ==> r[j] == vs[j]) &&
            (i != -1 ==> r[i] == vs[i].(location := loc))
  {
    Seqs.UpdateFirstAtFindIndex(vs, VehicleId, id, Relocated(loc));
  }

  class FleetStore {
    var vehicles: seq<Vehicle>
    var loading: bool
    var error: Option<string>
    var selectedVehicle: Option<Vehicle>
    var filters: Filters

    /** `initialState` */
    constructor ()
      ensures vehicles == [] && !loading && error == None && selectedVehicle == None
      ensures filters == Filters([], [])
    {
      vehicles := [];
      loading := false;
      error := None;
      selectedVehicle := None;
      filters := Filters([], []);
    }

    method SetVehicles(payload: seq<Vehicle>)
      modifies this`vehicles
      ensures vehicles == payload
    {
      vehicles := payload;
    }

    /** `state.vehicles.push(vehicle)` */
    method AddVehicle(vehicle: Vehicle)
      modifies this`vehicles
      ensures vehicles == old(vehicles) + [vehicle]
    {
      vehicles := vehicles + [vehicle];
    }

    /** `findIndex` on the id, then an indexed assignment when found. */
    method UpdateVehicle(vehicle: Vehicle)
      modifies this`vehicles
      ensures vehicles == Seqs.ReplaceFirst(old(vehicles), VehicleId, vehicle)
    {
      var index := Seqs.FindIndex(vehicles, VehicleId, vehicle.id);
      Seqs.UpdateFirstAtFindIndex(vehicles, VehicleId, vehicle.id, _ => vehicle);
      if index != -1 {
        vehicles := vehicles[index := vehicle];
      }
    }

    method SelectVehicle(vehicle: Vehicle)
      modifies this`selectedVehicle
      ensures selectedVehicle == Some(vehicle)
    {
      selectedVehicle := Some(vehicle);
    }

    /** `find` on the id, then the found vehicle's location is overwritten in place. */
    method UpdateVehicleLocation(id: string, location: Location)
      modifies this`vehicles
      ensures vehicles == Seqs.UpdateFirst(old(vehicles), VehicleId, id, Relocated(location))
    {
      var index := Seqs.FindIndex(vehicles, VehicleId, id);
      Seqs.UpdateFirstAtFindIndex(vehicles, VehicleId, id, Relocated(location));
      if index != -1 {
        vehicles := vehicles[index := vehicles[index].(location := location)];
      }
    }

    method SetFilters(patch: FiltersPatch)
      modifies this`filters
      ensures filters == MergeFilters(old(filters), patch)
    {
      filters := MergeFilters(filters, patch);
    }

    method SetLoading(value: bool)
      modifies this`loading
      ensures loading == value
    {
      loading := value;
    }

    method SetError(value: Option<string>)
      modifies this`error
      ensures error == value
    {
      error := value;
    }
  }
}
