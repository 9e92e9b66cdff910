/** The dashboard slice of the Redux store (src/store/slices/dashboardSlice.ts): the metric
    counters and the activity and alert feeds. */
module DashboardSlice {
  import opened Js

  datatype DashboardMetrics = DashboardMetrics(
    totalVehicles: real,
    activeVehicles: real,
    totalDeliveries: real,
    completedDeliveries: real,
    pendingDeliveries: real,
    totalDrivers: real,
    activeDrivers: real,
    fuelConsumption: real,
    revenue: real,
    maintenanceAlerts: real,
    co2Emissions: real)

  const ZeroMetrics := DashboardMetrics(0.0, 0.0, 0.0, 0.0, 0.0, 0.0, 0.0, 0.0, 0.0, 0.0, 0.0)

  class DashboardStore {
    var metrics: DashboardMetrics
    var recentActivities: seq<JsValue>
    var alerts: seq<JsValue>
    var loading: bool
    var error: Option<string>

    /** Every counter starts at zero and both feeds start empty. */
    constructor ()
      ensures metrics == ZeroMetrics && recentActivities == [] && alerts == []
      ensures !loading && error == None
    {
      metrics := ZeroMetrics;
      recentActivities := [];
      alerts := [];
      loading := false;
      error := None;
    }

    method SetMetrics(payload: DashboardMetrics)
      modifies this`metrics
      ensures metrics == payload
    {
      metrics := payload;
    }

    method SetRecentActivities(payload: seq<JsValue>)
      modifies this`recentActivities
      ensures recentActivities == payload
    {
      recentActivities := payload;
    }

    method SetAlerts(payload: seq<JsValue>)
      modifies this`alerts
      ensures alerts == payload
    {
      alerts := payload;
    }

    method SetLoading(value: bool)
      modifies this`loading
      ensures loading == value
    {
      loading := value;
    }

    method SetError(value: Option<string>)
      modifies this`error
      ensures error == value
    {
      error := value;
    }
  }
}
