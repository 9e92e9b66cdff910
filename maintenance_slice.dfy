/** The maintenance slice of the Redux store (src/store/slices/maintenanceSlice.ts): two lists,
    the maintenance records and the critical alerts; `addRecord` and `updateRecord` touch only
    the records. */
module MaintenanceSlice {
  import opened Js
  import Seqs

  datatype MaintenancePredictions = MaintenancePredictions(failureRisk: real, nextMaintenanceDate: string, costEstimate: real)

  /** `vehicleNumber` is not declared by the slice's interface but is carried by the records the
      maintenance screen stores and searches. */
  datatype MaintenanceRecord = MaintenanceRecord(
    id: string,
    vehicleId: string,
    vehicleNumber: string,
    maintenanceType: string,
    status: string,
    priority: string,
    scheduledDate: string,
    completedDate: Option<string>,
    description: string,
    cost: real,
    parts: seq<string>,
    aiPredictions: MaintenancePredictions)

  function RecordId(r: MaintenanceRecord): string
  {
    r.id
  }

  class MaintenanceStore {
    var records: seq<MaintenanceRecord>
    var alerts: seq<MaintenanceRecord>
    var loading: bool
    var error: Option<string>

    constructor ()
      ensures records == [] && alerts == [] && !loading && error == None
    {
      records := [];
      alerts := [];
      loading := false;
      error := None;
    }

    method SetRecords(payload: seq<MaintenanceRecord>)
      modifies this`records
      ensures records == payload
    {
      records := payload;
    }

    method SetAlerts(payload: seq<MaintenanceRecord>)
      modifies this`alerts
      ensures alerts == payload
    {
      alerts := payload;
    }

    method AddRecord(record: MaintenanceRecord)
      modifies this`records
      ensures records == old(records) + [record]
    {
      records := records + [record];
    }

    /** Searches and replaces in `records` only; an alert with the same id is never touched. */
    method UpdateRecord(record: MaintenanceRecord)
      modifies this`records
      ensures records == Seqs.ReplaceFirst(old(records), RecordId, record)
    {
      var index := Seqs.FindIndex(records, RecordId, record.id);
      Seqs.UpdateFirstAtFindIndex(records, RecordId, record.id, _ => record);
      if index != -1 {
        records := records[index := record];
      }
    }

    method SetLoading(value: bool)
      modifies this`loading
      ensures loading == value
    {
      loading := value;
    }

    method SetError(value: Option<string>)
      modifies this`error
      ensures error == value
    {
      error := value;
    }
  }
}
