/** The driver slice of the Redux store (src/store/slices/driverSlice.ts). */
module DriverSlice {
  import opened Js
  import Seqs

  datatype GeoPoint = GeoPoint(lat: real, lng: real)

  datatype Performance = Performance(
    rating: real,
    completedDeliveries: real,
    onTimeDeliveries: real,
    safetyScore: real,
    fuelEfficiency: real)

  datatype DriverMonitoring = DriverMonitoring(fatigueLevel: real, drivingScore: real, riskAssessment: real)

  datatype Driver = Driver(
    id: string,
    firstName: string,
    lastName: string,
    email: string,
    phone: string,
    licenseNumber: string,
    status: string,
    currentVehicle: Option<string>,
    location: Option<GeoPoint>,
    performance: Performance,
    aiMonitoring: DriverMonitoring)

  function DriverId(d: Driver): string
  {
    d.id
  }

  /** What `driver.location = location` does to the driver `find` returned; the optional
      location becomes present whether or not it was before. */
  function Located(loc: GeoPoint): Driver -> Driver
  {
    (d: Driver) => d.(location := Some(loc))
  }

  /** A location update gives the first driver with that id the new location, present even if
      it was absent before, and changes nothing else; an unknown id changes nothing. */
  lemma LocateChangesOnlyLocation(ds: seq<Driver>, id: string, loc: GeoPoint)
    ensures var r := Seqs.UpdateFirst(ds, DriverId, id, Located(loc));
            var i := Seqs.FindIndex(ds, DriverId, id);
            |r| == |ds| &&
            (forall j :: 0 <= j < |ds| && j != i ==> r[j] == ds[j]) &&
            (i != -1 ==> r[i].location == Some(loc) && r[i] == ds[i].(location := Some(loc))) &&
            (i == -1 ==> r == ds)
  {
    Seqs.UpdateFirstAtFindIndex(ds, DriverId, id, Located(loc));
  }

  class DriverStore {
    var drivers: seq<Driver>
    var loading: bool
    var error: Option<string>

    constructor ()
      ensures drivers == [] && !loading && error == None
    {
      drivers := [];
      loading := false;
      error := None;
    }

    method SetDrivers(payload: seq<Driver>)
      modifies this`drivers
      ensures drivers == payload
    {
      drivers := payload;
    }

    method AddDriver(driver: Driver)
      modifies this`drivers
      ensures drivers == old(drivers) + [driver]
    {
      drivers := drivers + [driver];
    }

    method UpdateDriver(driver: Driver)
      modifies this`drivers
      ensures drivers == Seqs.ReplaceFirst(old(drivers), DriverId, driver)
    {
      var index := Seqs.FindIndex(drivers, DriverId, driver.id);
      Seqs.UpdateFirstAtFindIndex(drivers, DriverId, driver.id, _ => driver);
      if index != -1 {
        drivers := drivers[index := driver];
      }
    }

    method UpdateDriverLocation(id: string, location: GeoPoint)
      modifies this`drivers
      ensures drivers == Seqs.UpdateFirst(old(drivers), DriverId, id, Located(location))
    {
      var index := Seqs.FindIndex(drivers, DriverId, id);
      Seqs.UpdateFirstAtFindIndex(drivers, DriverId, id, Located(location));
      if index != -1 {
        drivers := drivers[index := drivers[index].(location := Some(location))];
      }
    }

    method SetLoading(value: bool)
      modifies this`loading
      ensures loading == value
    {
      loading := value;
    }

    method SetError(value: Option<string>)
      modifies this`error
      ensures error == value
    {
      error := value;
    }
  }
}
