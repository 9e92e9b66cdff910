/** The delivery endpoints of the REST backend (backend/routes/deliveries.js): the filtered list
    query, lookup, creation and the status update with its real-time event. */
module DeliveriesApi {
  import opened Js
  import opened Text
  import opened Sql

  const ListBase := "SELECT d.*, c.name as customer_name, r.name as route_name FROM deliveries d LEFT JOIN customers c ON d.customer_id = c.id LEFT JOIN routes r ON d.route_id = r.id WHERE 1=1"
  const ListOrder := " ORDER BY d.created_at DESC"

  /** The optional query-string filters of `GET /`, in the order the handler tests them. */
  function ListFilters(status: JsValue, priority: JsValue, customerId: JsValue): seq<Input>
  {
    [Input("d.status", status), Input("d.priority", priority), Input("d.customer_id", customerId)]
  }

  /** `GET /`: the query text and the parameters; the ordering comes after every condition. */
  method ListQuery(status: JsValue, priority: JsValue, customerId: JsValue) returns (query: string, params: seq<JsValue>)
    ensures var conds := Numbered(ListFilters(status, priority, customerId), 0);
            query == ListBase + WhereText(conds) + ListOrder && params == ValuesOf(conds)
  {
    var s, p, c := Input("d.status", status), Input("d.priority", priority), Input("d.customer_id", customerId);
    query, params := ListBase, [];
    query, params := AddFilter(query, params, s, ListBase, []);
    assert [] + [s] == [s];
    query, params := AddFilter(query, params, p, ListBase, [s]);
    assert [s] + [p] == [s, p];
    query, params := AddFilter(query, params, c, ListBase, [s, p]);
    assert [s, p] + [c] == ListFilters(status, priority, customerId);
    query := query + ListOrder;
  }

  /** A customer filter after a status filter is `$2`, bound to the second parameter. */
  lemma ListQueryStatusAndCustomer(status: JsValue, customerId: JsValue)
    requires Truthy(status) && Truthy(customerId)
    ensures Numbered(ListFilters(status, Undefined, customerId), 0) ==
            [Condition("d.status", 1, status), Condition("d.customer_id", 2, customerId)]
  {
    var fs := ListFilters(status, Undefined, customerId);
    assert fs[1..][1..][1..] == [];
    assert Numbered(fs[1..][1..], 1) == [Condition("d.customer_id", 2, customerId)] + Numbered(fs[1..][1..][1..], 2);
    assert Numbered(fs[1..], 1) == Numbered(fs[1..][1..], 1);
    assert Numbered(fs, 0) == [Condition("d.status", 1, status)] + Numbered(fs[1..], 1);
  }

  /** `GET /` */
  function ListResponse(result: DbResult): Response
  {
    Sql.ListResponse(result, "Failed to fetch deliveries")
  }

  /** `GET /:id` */
  function GetResponse(result: DbResult): (r: Response)
    ensures r.status == 404 <==> result.Rows? && result.rows == []
  {
    RowResponse(result, "Delivery not found", "Failed to fetch delivery")
  }

  /** The fields `POST /` binds to `$1`..`$13`; `priority` defaults to 'medium'. */
  const CreateFields: seq<Field> := [
    Plain("tracking_number"), Plain("customer_id"), Plain("route_id"), Plain("pickup_location"),
    Plain("delivery_location"), Plain("scheduled_pickup"), Plain("scheduled_delivery"),
    Plain("cargo_weight"), Stringified("cargo_dimensions"), Plain("cargo_type"),
    Plain("cargo_value"), Plain("special_requirements"), Defaulted("priority", Str("medium"))
  ]

  /** A new delivery without a priority is 'medium'; a present priority is kept. */
  lemma CreatePriorityDefault(body: Row)
    ensures |InsertParams(body, CreateFields)| == 13
    ensures "priority" !in body ==> InsertParams(body, CreateFields)[12] == Value(Str("medium"))
    ensures "priority" in body && !body["priority"].Undefined? ==> InsertParams(body, CreateFields)[12] == Value(body["priority"])
  {
    assert CreateFields[12] == Defaulted("priority", Str("medium"));
  }

  const StatusSet := "UPDATE deliveries SET "
  const StatusTail := ", updated_at = CURRENT_TIMESTAMP WHERE id = $1 RETURNING *"

  /** The optional timestamps of `PUT /:id/status`, in the order the handler tests them. */
  function StatusInputs(actualPickup: JsValue, actualDelivery: JsValue): seq<Input>
  {
    [Input("actual_pickup", actualPickup), Input("actual_delivery", actualDelivery)]
  }

  /** `PUT /:id/status`: `$1` is the id, `$2` the status, then the present timestamps. */
  method StatusUpdate(id: string, status: JsValue, actualPickup: JsValue, actualDelivery: JsValue)
    returns (sql: string, params: seq<JsValue>)
    ensures var conds := Numbered(StatusInputs(actualPickup, actualDelivery), 2);
            params == [Str(id), status] + ValuesOf(conds) &&
            sql == StatusSet + Join(["status = $2"] + AssignmentTexts(conds), ", ") + StatusTail
  {
    var p, d := Input("actual_pickup", actualPickup), Input("actual_delivery", actualDelivery);
    var updates := ["status = $2"];
    params := [Str(id), status];
    updates, params := AddAssignment(updates, params, p, ["status = $2"], [Str(id), status], []);
    assert [] + [p] == [p];
    updates, params := AddAssignment(updates, params, d, ["status = $2"], [Str(id), status], [p]);
    assert [p] + [d] == StatusInputs(actualPickup, actualDelivery);
    sql := StatusSet + Join(updates, ", ") + StatusTail;
  }

  /** The delivery time's placeholder depends on the pickup time: `$4` after a pickup time,
      `$3` without one. */
  lemma StatusUpdateDeliveryPlaceholder(actualPickup: JsValue, actualDelivery: JsValue)
    requires Truthy(actualDelivery)
    ensures AssignmentTexts(Numbered(StatusInputs(actualPickup, actualDelivery), 2)) ==
            if Truthy(actualPickup) then ["actual_pickup = $3", "actual_delivery = $4"] else ["actual_delivery = $3"]
  {
    var fs := StatusInputs(actualPickup, actualDelivery);
    assert fs[1..][1..] == [];
    var k := if Truthy(actualPickup) then 3 else 2;
    assert Numbered(fs[1..], k) == [Condition("actual_delivery", k + 1, actualDelivery)];
    SmallPlaceholders();
    assert AssignmentText("actual_pickup", 3) == "actual_pickup = $3";
    assert AssignmentText("actual_delivery", 3) == "actual_delivery = $3";
    assert AssignmentText("actual_delivery", 4) == "actual_delivery = $4";
  }

  /** The response and the `deliveryStatusUpdate` broadcast of `PUT /:id/status`: the event goes
      out only when the update found the delivery. */
  function StatusOutcome(id: string, status: JsValue, result: DbResult, timestamp: string): (out: (Response, Option<Event>))
    ensures out.0.status == 404 <==> result.Rows? && result.rows == []
    ensures out.1.Some? <==> result.Rows? && result.rows != []
    ensures out.1.Some? ==> out.0.status == 200
    ensures out.1.Some? ==>
              out.1.value == Event("deliveryStatusUpdate", map["deliveryId" := Str(id), "status" := status, "timestamp" := Str(timestamp)])
  {
    var response := RowResponse(result, "Delivery not found", "Failed to update delivery status");
    if result.Rows? && result.rows != [] then
      (response, Some(Event("deliveryStatusUpdate", map["deliveryId" := Str(id), "status" := status, "timestamp" := Str(timestamp)])))
    else (response, None)
  }
}
