/** The maintenance list endpoint of the REST backend (backend/routes/maintenance.js). */
module MaintenanceApi {
  import opened Js
  import opened Sql

  const ListBase := "SELECT m.*, v.registration_number as vehicle_number FROM maintenance_records m LEFT JOIN vehicles v ON m.vehicle_id = v.id WHERE 1=1"
  const ListOrder := " ORDER BY m.scheduled_date DESC"

  /** The optional query-string filters of `GET /`, in the order the handler tests them. */
  function ListFilters(status: JsValue, priority: JsValue, vehicleId: JsValue): seq<Input>
  {
    [Input("m.status", status), Input("m.priority", priority), Input("m.vehicle_id", vehicleId)]
  }

  /** `GET /`: the query text and the parameters; the ordering comes after every condition. */
  method ListQuery(status: JsValue, priority: JsValue, vehicleId: JsValue) returns (query: string, params: seq<JsValue>)
    ensures var conds := Numbered(ListFilters(status, priority, vehicleId), 0);
            query == ListBase + WhereText(conds) + ListOrder && params == ValuesOf(conds)
  {
    var s, p, v := Input("m.status", status), Input("m.priority", priority), Input("m.vehicle_id", vehicleId);
    query, params := ListBase, [];
    query, params := AddFilter(query, params, s, ListBase, []);
    assert [] + [s] == [s];
    query, params := AddFilter(query, params, p, ListBase, [s]);
    assert [s] + [p] == [s, p];
    query, params := AddFilter(query, params, v, ListBase, [s, p]);
    assert [s, p] + [v] == ListFilters(status, priority, vehicleId);
    query := query + ListOrder;
  }

  /** With all three filters the placeholders are `$1`, `$2`, `$3` in filter order. */
  lemma ListQueryAllFilters(status: JsValue, priority: JsValue, vehicleId: JsValue)
    requires Truthy(status) && Truthy(priority) && Truthy(vehicleId)
    ensures Numbered(ListFilters(status, priority, vehicleId), 0) ==
            [Condition("m.status", 1, status), Condition("m.priority", 2, priority), Condition("m.vehicle_id", 3, vehicleId)]
  {
    var fs := ListFilters(status, priority, vehicleId);
    assert fs[1..][1..][1..] == [];
    assert Numbered(fs[1..][1..], 2) == [Condition("m.vehicle_id", 3, vehicleId)] + Numbered(fs[1..][1..][1..], 3);
    assert Numbered(fs[1..], 1) == [Condition("m.priority", 2, priority)] + Numbered(fs[1..][1..], 2);
    assert Numbered(fs, 0) == [Condition("m.status", 1, status)] + Numbered(fs[1..], 1);
  }

  /** With no filter present only the base query and the ordering remain. */
  lemma ListQueryUnfiltered(status: JsValue, priority: JsValue, vehicleId: JsValue)
    requires !Truthy(status) && !Truthy(priority) && !Truthy(vehicleId)
    ensures Numbered(ListFilters(status, priority, vehicleId), 0) == []
  {
    var fs := ListFilters(status, priority, vehicleId);
    assert fs[1..][1..][1..] == [];
    assert Numbered(fs[1..][1..], 0) == Numbered(fs[1..][1..][1..], 0) == [];
    assert Numbered(fs[1..], 0) == Numbered(fs[1..][1..], 0);
    assert Numbered(fs, 0) == Numbered(fs[1..], 0);
  }

  /** `GET /` */
  function ListResponse(result: DbResult): Response
  {
    Sql.ListResponse(result, "Failed to fetch maintenance records")
  }
}
