/** The route endpoints of the REST backend (backend/routes/routes.js): the filtered list query,
    lookup, creation, AI optimisation and the status update. SQL text is kept with its white
    space normalised to single spaces. */
module RoutesApi {
  import opened Js
  import opened Text
  import opened Sql

  const ListBase := "SELECT r.*, v.registration_number as vehicle_number, d.first_name || ' ' || d.last_name as driver_name FROM routes r LEFT JOIN vehicles v ON r.vehicle_id = v.id LEFT JOIN drivers dr ON r.driver_id = dr.id LEFT JOIN users d ON dr.user_id = d.id WHERE 1=1"
  const ListOrder := " ORDER BY r.created_at DESC"

  /** The optional query-string filters of `GET /`, in the order the handler tests them. */
  function ListFilters(status: JsValue, vehicleId: JsValue, driverId: JsValue): seq<Input>
  {
    [Input("r.status", status), Input("r.vehicle_id", vehicleId), Input("r.driver_id", driverId)]
  }

  /** `GET /`: the query text and the parameters. Each present filter contributes its condition,
      numbered by the reference numbering, and the ordering comes after all of them. */
  method ListQuery(status: JsValue, vehicleId: JsValue, driverId: JsValue) returns (query: string, params: seq<JsValue>)
    ensures var conds := Numbered(ListFilters(status, vehicleId, driverId), 0);
            query == ListBase + WhereText(conds) + ListOrder && params == ValuesOf(conds)
  {
    var s, v, d := Input("r.status", status), Input("r.vehicle_id", vehicleId), Input("r.driver_id", driverId);
    query, params := ListBase, [];
    query, params := AddFilter(query, params, s, ListBase, []);
    assert [] + [s] == [s];
    query, params := AddFilter(query, params, v, ListBase, [s]);
    assert [s] + [v] == [s, v];
    query, params := AddFilter(query, params, d, ListBase, [s, v]);
    assert [s, v] + [d] == ListFilters(status, vehicleId, driverId);
    query := query + ListOrder;
  }

  /** Without filters the list query binds no parameter and adds no condition. */
  lemma ListQueryUnfiltered(status: JsValue, vehicleId: JsValue, driverId: JsValue)
    requires !Truthy(status) && !Truthy(vehicleId) && !Truthy(driverId)
    ensures Numbered(ListFilters(status, vehicleId, driverId), 0) == []
  {
    var fs := ListFilters(status, vehicleId, driverId);
    assert fs[1..][1..][1..] == [];
    assert Numbered(fs[1..][1..], 0) == Numbered(fs[1..][1..][1..], 0) == [];
    assert Numbered(fs[1..], 0) == Numbered(fs[1..][1..], 0);
    assert Numbered(fs, 0) == Numbered(fs[1..], 0);
  }

  /** Placeholders are renumbered around absent filters: a vehicle filter alone is `$1`. */
  lemma ListQueryVehicleOnly(vehicleId: JsValue)
    requires Truthy(vehicleId)
    ensures Numbered(ListFilters(Undefined, vehicleId, Undefined), 0) == [Condition("r.vehicle_id", 1, vehicleId)]
  {
    var fs := ListFilters(Undefined, vehicleId, Undefined);
    assert fs[1..][1..][1..] == [];
    assert Numbered(fs[1..][1..], 1) == Numbered(fs[1..][1..][1..], 1) == [];
    assert Numbered(fs[1..], 0) == [Condition("r.vehicle_id", 1, vehicleId)] + Numbered(fs[1..][1..], 1);
    assert Numbered(fs, 0) == Numbered(fs[1..], 0);
  }

  /** `GET /` */
  function ListResponse(result: DbResult): Response
  {
    Sql.ListResponse(result, "Failed to fetch routes")
  }

  /** `GET /:id` */
  function GetResponse(result: DbResult): (r: Response)
    ensures r.status == 404 <==> result.Rows? && result.rows == []
  {
    RowResponse(result, "Route not found", "Failed to fetch route")
  }

  /** The fields `POST /` binds to `$1`..`$9`; `status` defaults to 'planned'. */
  const CreateFields: seq<Field> := [
    Plain("name"), Plain("origin"), Plain("destination"), Plain("distance"), Plain("estimated_time"),
    Plain("vehicle_id"), Plain("driver_id"), Stringified("waypoints"), Defaulted("status", Str("planned"))
  ]

  /** A new route without a status is 'planned'; a status that is present, even `null` or the
      empty string, is kept. */
  lemma CreateStatusDefault(body: Row)
    ensures |InsertParams(body, CreateFields)| == 9
    ensures "status" !in body ==> InsertParams(body, CreateFields)[8] == Value(Str("planned"))
    ensures "status" in body && !body["status"].Undefined? ==> InsertParams(body, CreateFields)[8] == Value(body["status"])
  {
    assert CreateFields[8] == Defaulted("status", Str("planned"));
  }

  /** The outcome of the call to the AI optimisation service. */
  datatype AiResult = AiOk(body: Row) | AiUnavailable

  /** The seven parameters of the optimisation `UPDATE`: an AI score that is falsy (missing, null
      or 0) falls back to the route's stored score. */
  function OptimizeParams(id: string, route: Row, optimization: Row): (params: seq<Param>)
    ensures |params| == 7 && params[0] == Value(Str(id))
    ensures params[1] == Value(Get(optimization, "optimized_distance")) && params[2] == Value(Get(optimization, "optimized_time"))
    ensures params[3] == Json(Get(optimization, "waypoints"))
    ensures Truthy(Get(optimization, "fuel_efficiency")) ==> params[4] == Value(Get(optimization, "fuel_efficiency"))
    ensures !Truthy(Get(optimization, "fuel_efficiency")) ==> params[4] == Value(Get(route, "fuel_efficiency"))
    ensures Truthy(Get(optimization, "traffic_prediction")) ==> params[5] == Value(Get(optimization, "traffic_prediction"))
    ensures !Truthy(Get(optimization, "traffic_prediction")) ==> params[5] == Value(Get(route, "traffic_prediction"))
    ensures Truthy(Get(optimization, "eta_accuracy")) ==> params[6] == Value(Get(optimization, "eta_accuracy"))
    ensures !Truthy(Get(optimization, "eta_accuracy")) ==> params[6] == Value(Get(route, "eta_accuracy"))
  {
    [Value(Str(id)),
     Value(Get(optimization, "optimized_distance")),
     Value(Get(optimization, "optimized_time")),
     Json(Get(optimization, "waypoints")),
     Value(Or(Get(optimization, "fuel_efficiency"), Get(route, "fuel_efficiency"))),
     Value(Or(Get(optimization, "traffic_prediction"), Get(route, "traffic_prediction"))),
     Value(Or(Get(optimization, "eta_accuracy"), Get(route, "eta_accuracy")))]
  }

  /** `savings.fuel_cost`: the AI's `fuel_saved`, or 0 when it is falsy. */
  function FuelSavings(optimization: Row): (r: JsValue)
    ensures Truthy(Get(optimization, "fuel_saved")) ==> r == Get(optimization, "fuel_saved")
    ensures !Truthy(Get(optimization, "fuel_saved")) ==> r == Num(0.0)
  {
    Or(Get(optimization, "fuel_saved"), Num(0.0))
  }

  /** The status of `POST /:id/optimize`: 404 when the route does not exist, whatever the later
      steps would have done; 500 when the lookup, the AI call or the update fails; 200 otherwise. */
  function OptimizeStatus(lookup: DbResult, ai: AiResult, update: DbResult): (status: nat)
    ensures status == 404 <==> lookup.Rows? && lookup.rows == []
    ensures status == 200 <==> lookup.Rows? && lookup.rows != [] && ai.AiOk? && update.Rows?
    ensures status == 200 || status == 404 || status == 500
  {
    if lookup.DbError? then 500
    else if lookup.rows == [] then 404
    else if ai.AiUnavailable? then 500
    else if update.DbError? then 500
    else 200
  }

  const StatusSet := "UPDATE routes SET "
  const StatusTail := ", updated_at = CURRENT_TIMESTAMP WHERE id = $1 RETURNING *"

  /** `PUT /:id/status`: `$1` is the id, `$2` the status, and a truthy `actual_time` becomes `$3`. */
  method StatusUpdate(id: string, status: JsValue, actualTime: JsValue) returns (sql: string, params: seq<JsValue>)
    ensures var conds := Numbered([Input("actual_time", actualTime)], 2);
            params == [Str(id), status] + ValuesOf(conds) &&
            sql == StatusSet + Join(["status = $2"] + AssignmentTexts(conds), ", ") + StatusTail
  {
    var updates := ["status = $2"];
    params := [Str(id), status];
    updates, params := AddAssignment(updates, params, Input("actual_time", actualTime), ["status = $2"], [Str(id), status], []);
    sql := StatusSet + Join(updates, ", ") + StatusTail;
  }

  /** A truthy actual time is bound to `$3`, after the id and the status. */
  lemma StatusUpdateActualTime(actualTime: JsValue)
    requires Truthy(actualTime)
    ensures AssignmentTexts(Numbered([Input("actual_time", actualTime)], 2)) == ["actual_time = $3"]
  {
    var x := Input("actual_time", actualTime);
    assert [x][1..] == [];
    assert Numbered([x], 2) == [Condition("actual_time", 3, actualTime)];
    SmallPlaceholders();
    assert AssignmentText("actual_time", 3) == "actual_time = $3";
  }

  /** `PUT /:id/status` */
  function StatusResponse(result: DbResult): (r: Response)
    ensures r.status == 404 <==> result.Rows? && result.rows == []
  {
    RowResponse(result, "Route not found", "Failed to update route status")
  }
}
