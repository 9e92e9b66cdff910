/** The driver endpoints of the REST backend (backend/routes/drivers.js): the list query with its
    status filter, lookup, creation, and the location and performance updates. */
module DriversApi {
  import opened Js
  import opened Sql

  const ListBase := "SELECT d.*, u.first_name, u.last_name, u.email, u.phone, v.registration_number as current_vehicle FROM drivers d JOIN users u ON d.user_id = u.id LEFT JOIN vehicles v ON d.current_vehicle_id = v.id WHERE 1=1"
  const ListOrder := " ORDER BY u.first_name, u.last_name"

  /** `GET /`: a truthy status adds ` AND d.status = $1` and binds the status; the ordering comes last. */
  method ListQuery(status: JsValue) returns (query: string, params: seq<JsValue>)
    ensures var conds := Numbered([Input("d.status", status)], 0);
            query == ListBase + WhereText(conds) + ListOrder && params == ValuesOf(conds)
    ensures Truthy(status) ==> query == ListBase + " AND d.status = $1" + ListOrder && params == [status]
    ensures !Truthy(status) ==> query == ListBase + ListOrder && params == []
  {
    var s := Input("d.status", status);
    query, params := ListBase, [];
    query, params := AddFilter(query, params, s, ListBase, []);
    assert [] + [s] == [s];
    NumberedSingle(s, 0);
    if Truthy(status) {
      SmallPlaceholders();
      WhereTextSingle(Condition("d.status", 1, status));
      assert query == ListBase + " AND d.status = $1";
    } else {
      assert query == ListBase + "";
    }
    query := query + ListOrder;
  }

  /** `GET /` */
  function ListResponse(result: DbResult): Response
  {
    Sql.ListResponse(result, "Failed to fetch drivers")
  }

  /** `GET /:id` */
  function GetResponse(result: DbResult): (r: Response)
    ensures r.status == 404 <==> result.Rows? && result.rows == []
  {
    RowResponse(result, "Driver not found", "Failed to fetch driver")
  }

  /** The fields `POST /` binds to `$1`..`$6`; `status` defaults to 'active'. */
  const CreateFields: seq<Field> := [
    Plain("user_id"), Plain("license_number"), Plain("license_expiry"), Plain("phone"),
    Plain("emergency_contact"), Defaulted("status", Str("active"))
  ]

  /** A new driver without a status is 'active'; a present status is kept. */
  lemma CreateStatusDefault(body: Row)
    ensures |InsertParams(body, CreateFields)| == 6
    ensures "status" !in body ==> InsertParams(body, CreateFields)[5] == Value(Str("active"))
    ensures "status" in body && !body["status"].Undefined? ==> InsertParams(body, CreateFields)[5] == Value(body["status"])
  {
    assert CreateFields[5] == Defaulted("status", Str("active"));
  }

  /** The response and the `driverLocationUpdate` broadcast of `PUT /:id/location`: the event goes
      out only when the update found the driver, and it is keyed `driverId`. */
  function LocationOutcome(id: string, lat: JsValue, lng: JsValue, result: DbResult, timestamp: string)
    : (out: (Response, Option<Event>))
    ensures out.0.status == 404 <==> result.Rows? && result.rows == []
    ensures out.1.Some? <==> result.Rows? && result.rows != []
    ensures out.1.Some? ==> out.0.status == 200
    ensures out.1.Some? ==> out.0.body == Obj(result.rows[0])
    ensures out.1.Some? ==>
              out.1.value == Event("driverLocationUpdate", map[
                "driverId" := Str(id),
                "location" := Obj(map["lat" := lat, "lng" := lng]),
                "timestamp" := Str(timestamp)])
    ensures out.1.Some? ==> "id" !in out.1.value.payload
  {
    var response := RowResponse(result, "Driver not found", "Failed to update driver location");
    if result.Rows? && result.rows != [] then
      (response, Some(Event("driverLocationUpdate", map[
        "driverId" := Str(id),
        "location" := Obj(map["lat" := lat, "lng" := lng]),
        "timestamp" := Str(timestamp)])))
    else (response, None)
  }

  /** `PUT /:id/performance` */
  function PerformanceResponse(result: DbResult): (r: Response)
    ensures r.status == 404 <==> result.Rows? && result.rows == []
  {
    RowResponse(result, "Driver not found", "Failed to update driver performance")
  }
}
