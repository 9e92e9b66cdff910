/** The vehicle endpoints of the REST backend (backend/routes/fleet.js): lookup, creation, the
    generic update whose SET clause is built from the request body's keys, and the location
    update with its real-time event. */
module FleetApi {
  import opened Js
  import opened Text
  import opened Sql

  /** A parsed request body as `Object.keys`/`Object.values` see it: its entries in key order. */
  type Body = seq<(string, JsValue)>

  /** The assignment each body entry gets: the i-th key is bound to `$(i+2)`, after the id. */
  function Bindings(body: Body): (b: seq<Condition>)
    ensures |b| == |body|
    ensures forall i :: 0 <= i < |body| ==> b[i] == Condition(body[i].0, i + 2, body[i].1)
  {
    seq(|body|, i requires 0 <= i < |body| => Condition(body[i].0, i + 2, body[i].1))
  }

  /** `Object.keys(updates).map((key, index) => `${key} = $${index + 2}`).join(', ')` */
  function SetClause(body: Body): (c: string)
    ensures body == [] ==> c == ""
  {
    Join(AssignmentTexts(Bindings(body)), ", ")
  }

  /** Each further key of the body adds `, key = $n` to the clause, numbered after the keys
      before it; the first key alone gives `key = $2`. */
  lemma SetClauseStep(body: Body, k: string, v: JsValue)
    ensures body == [] ==> SetClause(body + [(k, v)]) == AssignmentText(k, 2)
    ensures body != [] ==> SetClause(body + [(k, v)]) == SetClause(body) + ", " + AssignmentText(k, |body| + 2)
  {
    var longer := body + [(k, v)];
    var texts := AssignmentTexts(Bindings(body));
    assert AssignmentTexts(Bindings(longer)) == texts + [AssignmentText(k, |body| + 2)] by {
      forall i | 0 <= i < |body|
        ensures AssignmentTexts(Bindings(longer))[i] == texts[i]
      {
        assert longer[i] == body[i];
      }
      assert longer[|body|] == (k, v);
    }
    if body != [] {
      JoinAppend(texts, AssignmentText(k, |body| + 2), ", ");
    }
  }

  /** `[id, ...Object.values(updates)]` */
  function UpdateValues(id: string, body: Body): (values: seq<JsValue>)
    ensures |values| == |body| + 1 && values[0] == Str(id)
    ensures values[1..] == ValuesOf(Bindings(body))
  {
    [Str(id)] + ValuesOf(Bindings(body))
  }

  function UpdateSql(body: Body): string
  {
    "UPDATE vehicles SET " + SetClause(body) + ", updated_at = CURRENT_TIMESTAMP WHERE id = $1 RETURNING *"
  }

  /** Placeholder consistency of `PUT /vehicles/:id`: `$1` (the WHERE clause) is the id, every
      assignment's `$n` names `values[n-1]`, which is that key's value, and the numbers used are
      exactly 1 to `values.length`. */
  lemma UpdateBindingsConsistent(id: string, body: Body)
    ensures var values := UpdateValues(id, body);
            values[0] == Str(id) &&
            (forall i :: 0 <= i < |body| ==>
               2 <= Bindings(body)[i].placeholder <= |values| &&
               values[Bindings(body)[i].placeholder - 1] == body[i].1)
  {
    var values := UpdateValues(id, body);
    forall i | 0 <= i < |body|
      ensures values[Bindings(body)[i].placeholder - 1] == body[i].1
    {
      assert values[i + 1] == values[1..][i];
    }
  }

  /** An empty body leaves the SET clause empty, so the statement reads `SET , updated_at = ...`:
      the separator follows the keyword directly. */
  lemma EmptyBodySql()
    ensures SetClause([]) == ""
    ensures UpdateSql([]) == "UPDATE vehicles SET " + ", updated_at = CURRENT_TIMESTAMP WHERE id = $1 RETURNING *"
  {
    var head := "UPDATE vehicles SET ";
    assert head + "" == head;
  }

  /** `GET /vehicles/:id` */
  function GetResponse(result: DbResult): (r: Response)
    ensures r.status == 404 <==> result.Rows? && result.rows == []
  {
    RowResponse(result, "Vehicle not found", "Failed to fetch vehicle")
  }

  /** `PUT /vehicles/:id` */
  function UpdateResponse(result: DbResult): (r: Response)
    ensures r.status == 404 <==> result.Rows? && result.rows == []
  {
    RowResponse(result, "Vehicle not found", "Failed to update vehicle")
  }

  /** The fields `POST /vehicles` binds to `$1`..`$8`; `status` defaults to 'active'. */
  const CreateFields: seq<Field> := [
    Plain("registration_number"), Plain("type"), Plain("make"), Plain("model"), Plain("year"),
    Plain("capacity"), Plain("fuel_type"), Defaulted("status", Str("active"))
  ]

  /** A new vehicle without a status is 'active'; a present status is kept. */
  lemma CreateStatusDefault(body: Row)
    ensures |InsertParams(body, CreateFields)| == 8
    ensures "status" !in body ==> InsertParams(body, CreateFields)[7] == Value(Str("active"))
    ensures "status" in body && !body["status"].Undefined? ==> InsertParams(body, CreateFields)[7] == Value(body["status"])
  {
    assert CreateFields[7] == Defaulted("status", Str("active"));
  }

  /** The response and the `vehicleLocationUpdate` broadcast of `PUT /vehicles/:id/location`: the
      event goes out only when the update found the vehicle, and it is keyed `vehicleId`, not `id`. */
  function LocationOutcome(id: string, lat: JsValue, lng: JsValue, address: JsValue, result: DbResult, timestamp: string)
    : (out: (Response, Option<Event>))
    ensures out.0.status == 404 <==> result.Rows? && result.rows == []
    ensures out.1.Some? <==> result.Rows? && result.rows != []
    ensures out.1.Some? ==> out.0.status == 200
    ensures out.1.Some? ==> out.0.body == Obj(result.rows[0])
    ensures out.1.Some? ==>
              out.1.value == Event("vehicleLocationUpdate", map[
                "vehicleId" := Str(id),
                "location" := Obj(map["lat" := lat, "lng" := lng, "address" := address]),
                "timestamp" := Str(timestamp)])
    ensures out.1.Some? ==> "id" !in out.1.value.payload
  {
    var response := RowResponse(result, "Vehicle not found", "Failed to update vehicle location");
    if result.Rows? && result.rows != [] then
      (response, Some(Event("vehicleLocationUpdate", map[
        "vehicleId" := Str(id),
        "location" := Obj(map["lat" := lat, "lng" := lng, "address" := address]),
        "timestamp" := Str(timestamp)])))
    else (response, None)
  }
}
