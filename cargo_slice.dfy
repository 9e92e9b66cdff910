/** The cargo slice of the Redux store (src/store/slices/cargoSlice.ts). */
module CargoSlice {
  import opened Js
  import Seqs

  datatype Dimensions = Dimensions(length: real, width: real, height: real)

  datatype Temperature = Temperature(current: real, min: real, max: real)

  datatype CargoMonitoring = CargoMonitoring(conditionScore: real, riskAssessment: real, temperatureAlerts: bool)

  datatype Cargo = Cargo(
    id: string,
    deliveryId: string,
    cargoType: string,
    weight: real,
    dimensions: Dimensions,
    value: real,
    temperature: Option<Temperature>,
    humidity: Option<real>,
    status: string,
    aiMonitoring: CargoMonitoring)

  function CargoId(c: Cargo): string
  {
    c.id
  }

  class CargoStore {
    var cargos: seq<Cargo>
    var loading: bool
    var error: Option<string>

    constructor ()
      ensures cargos == [] && !loading && error == None
    {
      cargos := [];
      loading := false;
      error := None;
    }

    method SetCargos(payload: seq<Cargo>)
      modifies this`cargos
      ensures cargos == payload
    {
      cargos := payload;
    }

    method AddCargo(cargo: Cargo)
      modifies this`cargos
      ensures cargos == old(cargos) + [cargo]
    {
      cargos := cargos + [cargo];
    }

    method UpdateCargo(cargo: Cargo)
      modifies this`cargos
      ensures cargos == Seqs.ReplaceFirst(old(cargos), CargoId, cargo)
    {
      var index := Seqs.FindIndex(cargos, CargoId, cargo.id);
      Seqs.UpdateFirstAtFindIndex(cargos, CargoId, cargo.id, _ => cargo);
      if index != -1 {
        cargos := cargos[index := cargo];
      }
    }

    method SetLoading(value: bool)
      modifies this`loading
      ensures loading == value
    {
      loading := value;
    }

    method SetError(value: Option<string>)
      modifies this`error
      ensures error == value
    {
      error := value;
    }
  }
}
