/** The fuel slice of the Redux store (src/store/slices/fuelSlice.ts). */
module FuelSlice {
  import opened Js
  import Seqs

  datatype FuelAnalysis = FuelAnalysis(efficiencyScore: real, fraudRisk: real, patternAnomaly: bool)

  datatype FuelRecord = FuelRecord(
    id: string,
    vehicleId: string,
    driverId: string,
    amount: real,
    cost: real,
    location: string,
    timestamp: string,
    mileage: real,
    fuelType: string,
    aiAnalysis: FuelAnalysis)

  function FuelRecordId(r: FuelRecord): string
  {
    r.id
  }

  class FuelStore {
    var records: seq<FuelRecord>
    var loading: bool
    var error: Option<string>

    constructor ()
      ensures records == [] && !loading && error == None
    {
      records := [];
      loading := false;
      error := None;
    }

    method SetRecords(payload: seq<FuelRecord>)
      modifies this`records
      ensures records == payload
    {
      records := payload;
    }

    method AddRecord(record: FuelRecord)
      modifies this`records
      ensures records == old(records) + [record]
    {
      records := records + [record];
    }

    method UpdateRecord(record: FuelRecord)
      modifies this`records
      ensures records == Seqs.ReplaceFirst(old(records), FuelRecordId, record)
    {
      var index := Seqs.FindIndex(records, FuelRecordId, record.id);
      Seqs.UpdateFirstAtFindIndex(records, FuelRecordId, record.id, _ => record);
      if index != -1 {
        records := records[index := record];
      }
    }

    method SetLoading(value: bool)
      modifies this`loading
      ensures loading == value
    {
      loading := value;
    }

    method SetError(value: Option<string>)
      modifies this`error
      ensures error == value
    {
      error := value;
    }
  }
}
