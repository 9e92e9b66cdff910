/** What the Express handlers send to the database and back to the client: parameterised SQL
    text with `$n` placeholders, the parameter list, and the JSON responses. The database and the
    socket server are not modelled; their results are inputs. */
module Sql {
  import opened Js
  import opened Text
  import Seqs

  /** A query parameter: a value as received, or `JSON.stringify` of a value. */
  datatype Param = Value(v: JsValue) | Json(of: JsValue)

  /** `$${n}` */
  function Placeholder(n: nat): (p: string)
    ensures |p| >= 2 && p[0] == '$' && p[1..] == NatToString(n)
  {
    "$" + NatToString(n)
  }

  /** Different numbers never print as the same placeholder. */
  lemma PlaceholderInjective(m: nat, n: nat)
    ensures Placeholder(m) == Placeholder(n) ==> m == n
  {
    if Placeholder(m) == Placeholder(n) {
      assert Placeholder(m)[1..] == Placeholder(n)[1..];
      NatToStringInjective(m, n);
    }
  }

  /** The number a placeholder carries reads back from its digits. */
  lemma PlaceholderRoundTrip(n: nat)
    ensures Placeholder(n)[0] == '$' && ParseNat(Placeholder(n)[1..]) == n
  {
    ParseNatToString(n);
  }

  /** The placeholders the status handlers can reach. */
  lemma SmallPlaceholders()
    ensures Placeholder(1) == "$1" && Placeholder(2) == "$2" && Placeholder(3) == "$3" && Placeholder(4) == "$4"
  {
    assert NatToString(1) == "1" && NatToString(2) == "2" && NatToString(3) == "3" && NatToString(4) == "4";
  }

  /** An optional request input: the column it filters or sets, and the value received. */
  datatype Input = Input(column: string, value: JsValue)

  /** A condition or assignment that made it into the query: its column, its placeholder number
      and the parameter value bound to that placeholder. */
  datatype Condition = Condition(column: string, placeholder: nat, value: JsValue)

  /** The handlers test each input with `if (x)`: only truthy inputs make it into the query. */
  predicate Present(x: Input)
  {
    Truthy(x.value)
  }

  /** Reference numbering: the present inputs in order, numbered consecutively after the `k`
      parameters already bound. */
  function Numbered(inputs: seq<Input>, k: nat): seq<Condition>
  {
    if inputs == [] then []
    else if Present(inputs[0]) then [Condition(inputs[0].column, k + 1, inputs[0].value)] + Numbered(inputs[1..], k + 1)
    else Numbered(inputs[1..], k)
  }

  /** The input a condition came from. */
  function Origin(c: Condition): Input
  {
    Input(c.column, c.value)
  }

  function Origins(conds: seq<Condition>): (r: seq<Input>)
    ensures |r| == |conds| && forall i :: 0 <= i < |conds| ==> r[i] == Origin(conds[i])
  {
    seq(|conds|, i requires 0 <= i < |conds| => Origin(conds[i]))
  }

  /** The parameters bound by the conditions, in placeholder order. */
  function ValuesOf(conds: seq<Condition>): (vs: seq<JsValue>)
    ensures |vs| == |conds| && forall i :: 0 <= i < |conds| ==> vs[i] == conds[i].value
  {
    seq(|conds|, i requires 0 <= i < |conds| => conds[i].value)
  }

  lemma OriginsCons(c: Condition, conds: seq<Condition>)
    ensures Origins([c] + conds) == [Origin(c)] + Origins(conds)
  {
    var l := Origins([c] + conds);
    var r := [Origin(c)] + Origins(conds);
    assert |l| == |r|;
    forall i | 0 <= i < |l|
      ensures l[i] == r[i]
    {
      if i > 0 {
        assert ([c] + conds)[i] == conds[i - 1];
      }
    }
  }

  /** One condition per present input and none for an absent one, in input order. */
  lemma {:induction false} NumberedOrigins(inputs: seq<Input>, k: nat)
    ensures Origins(Numbered(inputs, k)) == Seqs.Filter(inputs, Present)
  {
    if inputs != [] {
      var rest := if Present(inputs[0]) then k + 1 else k;
      var tail := Numbered(inputs[1..], rest);
      NumberedOrigins(inputs[1..], rest);
      if Present(inputs[0]) {
        var c := Condition(inputs[0].column, k + 1, inputs[0].value);
        assert Numbered(inputs, k) == [c] + tail;
        assert Seqs.Filter(inputs, Present) == [inputs[0]] + Seqs.Filter(inputs[1..], Present);
        OriginsCons(c, tail);
      } else {
        assert Numbered(inputs, k) == tail;
        assert Seqs.Filter(inputs, Present) == Seqs.Filter(inputs[1..], Present);
      }
    }
  }

  /** The i-th condition carries placeholder `k + i + 1`. */
  lemma {:induction false} NumberedPlaceholders(inputs: seq<Input>, k: nat)
    ensures forall i :: 0 <= i < |Numbered(inputs, k)| ==> Numbered(inputs, k)[i].placeholder == k + i + 1
  {
    if inputs != [] {
      if Present(inputs[0]) {
        var tail := Numbered(inputs[1..], k + 1);
        NumberedPlaceholders(inputs[1..], k + 1);
        var c := Condition(inputs[0].column, k + 1, inputs[0].value);
        assert Numbered(inputs, k) == [c] + tail;
        forall i | 0 <= i < |[c] + tail|
          ensures ([c] + tail)[i].placeholder == k + i + 1
        {
          if i > 0 {
            assert ([c] + tail)[i] == tail[i - 1];
          }
        }
      } else {
        NumberedPlaceholders(inputs[1..], k);
      }
    }
  }

  /** Placeholder consistency: there is one condition per present input and for no other, in input
      order, and the i-th condition carries placeholder `k + i + 1`. With `k` parameters already
      bound, placeholder `$n` therefore names the n-th parameter. */
  lemma NumberedSpec(inputs: seq<Input>, k: nat)
    ensures |Numbered(inputs, k)| == Seqs.Count(inputs, Present)
    ensures Origins(Numbered(inputs, k)) == Seqs.Filter(inputs, Present)
    ensures forall i :: 0 <= i < |Numbered(inputs, k)| ==> Numbered(inputs, k)[i].placeholder == k + i + 1
  {
    NumberedOrigins(inputs, k);
    NumberedPlaceholders(inputs, k);
    assert |Origins(Numbered(inputs, k))| == |Numbered(inputs, k)|;
  }

  /** With `k` parameters already bound and the conditions' values pushed after them, the i-th
      present input gets placeholder `$(k+i+1)`, that placeholder names its own value in the
      parameter list, and its assignment text names its own column. */
  lemma PlaceholderRefersToParam(bound: seq<JsValue>, inputs: seq<Input>)
    ensures var conds := Numbered(inputs, |bound|);
            var params := bound + ValuesOf(conds);
            var present := Seqs.Filter(inputs, Present);
            |conds| == |present| &&
            forall i :: 0 <= i < |conds| ==>
              conds[i].placeholder == |bound| + i + 1 &&
              params[conds[i].placeholder - 1] == present[i].value &&
              AssignmentTexts(conds)[i] == AssignmentText(present[i].column, |bound| + i + 1)
  {
    var conds := Numbered(inputs, |bound|);
    var params := bound + ValuesOf(conds);
    var present := Seqs.Filter(inputs, Present);
    NumberedOrigins(inputs, |bound|);
    NumberedPlaceholders(inputs, |bound|);
    assert |conds| == |Origins(conds)| == |present|;
    forall i | 0 <= i < |conds|
      ensures conds[i].placeholder == |bound| + i + 1 &&
              params[conds[i].placeholder - 1] == present[i].value &&
              AssignmentTexts(conds)[i] == AssignmentText(present[i].column, |bound| + i + 1)
    {
      RefersAt(bound, conds, present, i);
    }
  }

  /** One position of `PlaceholderRefersToParam`. */
  lemma RefersAt(bound: seq<JsValue>, conds: seq<Condition>, present: seq<Input>, i: nat)
    requires Origins(conds) == present && i < |conds|
    requires conds[i].placeholder == |bound| + i + 1
    ensures (bound + ValuesOf(conds))[conds[i].placeholder - 1] == present[i].value
    ensures AssignmentTexts(conds)[i] == AssignmentText(present[i].column, |bound| + i + 1)
  {
    assert Origins(conds)[i] == Origin(conds[i]);
    assert (bound + ValuesOf(conds))[|bound| + i] == ValuesOf(conds)[i];
  }

  /** Numbering a longer input list continues where the shorter one stopped. */
  lemma {:induction false} NumberedAppend(xs: seq<Input>, ys: seq<Input>, k: nat)
    ensures Numbered(xs + ys, k) == Numbered(xs, k) + Numbered(ys, k + |Numbered(xs, k)|)
  {
    if xs == [] {
      assert xs + ys == ys;
    } else {
      assert (xs + ys)[1..] == xs[1..] + ys;
      if Present(xs[0]) {
        NumberedAppend(xs[1..], ys, k + 1);
      } else {
        NumberedAppend(xs[1..], ys, k);
      }
    }
  }

  /** ` AND col = $n` */
  function FilterText(column: string, n: nat): string
  {
    " AND " + column + " = " + Placeholder(n)
  }

  /** The text the filter blocks append to the base query. */
  function WhereText(conds: seq<Condition>): string
  {
    if conds == [] then "" else FilterText(conds[0].column, conds[0].placeholder) + WhereText(conds[1..])
  }

  lemma {:induction false} WhereTextAppend(a: seq<Condition>, b: seq<Condition>)
    ensures WhereText(a + b) == WhereText(a) + WhereText(b)
  {
    if a == [] {
      assert a + b == b;
    } else {
      assert (a + b)[1..] == a[1..] + b;
      WhereTextAppend(a[1..], b);
    }
  }

  /** `col = $n` */
  function AssignmentText(column: string, n: nat): string
  {
    column + " = " + Placeholder(n)
  }

  function AssignmentTexts(conds: seq<Condition>): (r: seq<string>)
    ensures |r| == |conds| && forall i :: 0 <= i < |conds| ==> r[i] == AssignmentText(conds[i].column, conds[i].placeholder)
  {
    seq(|conds|, i requires 0 <= i < |conds| => AssignmentText(conds[i].column, conds[i].placeholder))
  }

  /** One filter block of a list handler:
      `if (x) { query += ` AND col = $${params.length + 1}`; params.push(x); }`.
      `base` and `done` (the inputs already tested) are the bookkeeping that ties the text
      and the parameters to the reference numbering. */
  method AddFilter(query: string, params: seq<JsValue>, x: Input, ghost base: string, ghost done: seq<Input>)
    returns (query': string, params': seq<JsValue>)
    requires query == base + WhereText(Numbered(done, 0)) && params == ValuesOf(Numbered(done, 0))
    ensures query' == base + WhereText(Numbered(done + [x], 0)) && params' == ValuesOf(Numbered(done + [x], 0))
    ensures Present(x) ==> query' == query + FilterText(x.column, |params| + 1) && params' == params + [x.value]
    ensures !Present(x) ==> query' == query && params' == params
  {
    ghost var before := Numbered(done, 0);
    NumberedStepWhere(done, x, 0);
    NumberedStepValues(done, x, 0);
    assert |params| == |before|;
    query', params' := query, params;
    if Truthy(x.value) {
      assert Present(x);
      query' := query' + FilterText(x.column, |params'| + 1);
      params' := params' + [x.value];
      assert query' == base + (WhereText(before) + FilterText(x.column, |before| + 1));
    } else {
      assert !Present(x);
    }
  }

  /** One optional assignment of a status handler:
      `if (x) { updates.push(`col = $${params.length + 1}`); params.push(x); }`.
      `fixed` and `bound` are the updates and parameters the handler starts from. */
  method AddAssignment(updates: seq<string>, params: seq<JsValue>, x: Input,
                       ghost fixed: seq<string>, ghost bound: seq<JsValue>, ghost done: seq<Input>)
    returns (updates': seq<string>, params': seq<JsValue>)
    requires updates == fixed + AssignmentTexts(Numbered(done, |bound|))
    requires params == bound + ValuesOf(Numbered(done, |bound|))
    ensures updates' == fixed + AssignmentTexts(Numbered(done + [x], |bound|))
    ensures params' == bound + ValuesOf(Numbered(done + [x], |bound|))
    ensures Present(x) ==> updates' == updates + [AssignmentText(x.column, |params| + 1)] && params' == params + [x.value]
    ensures !Present(x) ==> updates' == updates && params' == params
  {
    NumberedStepAssignments(done, x, |bound|);
    NumberedStepValues(done, x, |bound|);
    updates', params' := updates, params;
    if Truthy(x.value) {
      updates' := updates' + [AssignmentText(x.column, |params'| + 1)];
      params' := params' + [x.value];
    }
  }

  /** The numbering of a single input: its condition when it is present, nothing otherwise. */
  lemma NumberedSingle(x: Input, m: nat)
    ensures Numbered([x], m) == if Present(x) then [Condition(x.column, m + 1, x.value)] else []
  {
    assert [x][1..] == [];
  }

  lemma WhereTextSingle(c: Condition)
    ensures WhereText([c]) == FilterText(c.column, c.placeholder)
  {
    assert [c][1..] == [];
    assert FilterText(c.column, c.placeholder) + "" == FilterText(c.column, c.placeholder);
  }

  lemma ValuesOfAppend(a: seq<Condition>, b: seq<Condition>)
    ensures ValuesOf(a + b) == ValuesOf(a) + ValuesOf(b)
  {
    assert |ValuesOf(a + b)| == |ValuesOf(a) + ValuesOf(b)|;
    forall i | 0 <= i < |a + b|
      ensures ValuesOf(a + b)[i] == (ValuesOf(a) + ValuesOf(b))[i]
    {
      if i >= |a| {
        assert (a + b)[i] == b[i - |a|];
      }
    }
  }

  lemma AssignmentTextsAppend(a: seq<Condition>, b: seq<Condition>)
    ensures AssignmentTexts(a + b) == AssignmentTexts(a) + AssignmentTexts(b)
  {
    assert |AssignmentTexts(a + b)| == |AssignmentTexts(a) + AssignmentTexts(b)|;
    forall i | 0 <= i < |a + b|
      ensures AssignmentTexts(a + b)[i] == (AssignmentTexts(a) + AssignmentTexts(b))[i]
    {
      if i >= |a| {
        assert (a + b)[i] == b[i - |a|];
      }
    }
  }

  /** The numbering after one more input: what `AddFilter` appends to the query text is exactly
      the next condition of the reference numbering. */
  lemma NumberedStepWhere(done: seq<Input>, x: Input, k: nat)
    ensures WhereText(Numbered(done + [x], k)) ==
            WhereText(Numbered(done, k)) + (if Present(x) then FilterText(x.column, k + |Numbered(done, k)| + 1) else "")
  {
    var before := Numbered(done, k);
    var m := k + |before|;
    var tail := Numbered([x], m);
    NumberedAppend(done, [x], k);
    NumberedSingle(x, m);
    WhereTextAppend(before, tail);
    if Present(x) {
      WhereTextSingle(Condition(x.column, m + 1, x.value));
    } else {
      assert WhereText(before) + WhereText(tail) == WhereText(before) + "";
    }
  }

  /** What `AddFilter` and `AddAssignment` push onto the parameters is the next condition's value. */
  lemma NumberedStepValues(done: seq<Input>, x: Input, k: nat)
    ensures ValuesOf(Numbered(done + [x], k)) == ValuesOf(Numbered(done, k)) + (if Present(x) then [x.value] else [])
  {
    var before := Numbered(done, k);
    var tail := Numbered([x], k + |before|);
    NumberedAppend(done, [x], k);
    NumberedSingle(x, k + |before|);
    ValuesOfAppend(before, tail);
  }

  /** What `AddAssignment` pushes onto the updates is the next condition's assignment. */
  lemma NumberedStepAssignments(done: seq<Input>, x: Input, k: nat)
    ensures AssignmentTexts(Numbered(done + [x], k)) ==
            AssignmentTexts(Numbered(done, k)) + (if Present(x) then [AssignmentText(x.column, k + |Numbered(done, k)| + 1)] else [])
  {
    var before := Numbered(done, k);
    var tail := Numbered([x], k + |before|);
    NumberedAppend(done, [x], k);
    NumberedSingle(x, k + |before|);
    AssignmentTextsAppend(before, tail);
    if Present(x) {
      assert AssignmentTexts(tail) == [AssignmentText(x.column, k + |before| + 1)];
    } else {
      assert AssignmentTexts(tail) == [];
    }
  }

  /** The outcome of a `db.query`: the returned rows, or a thrown error. */
  datatype DbResult = Rows(rows: seq<Row>) | DbError

  /** A response: the HTTP status and the JSON body. */
  datatype Response = Response(status: nat, body: JsValue)

  /** `{ error: message }` */
  function ErrorBody(message: string): JsValue
  {
    Obj(map["error" := Str(message)])
  }

  /** The list handlers: the rows as a JSON array, or 500 when the query throws. */
  function ListResponse(result: DbResult, failure: string): (r: Response)
    ensures r.status == 200 <==> result.Rows?
    ensures result.Rows? ==> r.body == Arr(seq(|result.rows|, i requires 0 <= i < |result.rows| => Obj(result.rows[i])))
    ensures result.DbError? ==> r == Response(500, ErrorBody(failure))
  {
    match result
    case Rows(rows) => Response(200, Arr(seq(|rows|, i requires 0 <= i < |rows| => Obj(rows[i]))))
    case DbError => Response(500, ErrorBody(failure))
  }

  /** The single-row handlers (lookup by id, `UPDATE ... RETURNING *`): the first row, 404 when
      no row came back, 500 when the query throws. */
  function RowResponse(result: DbResult, notFound: string, failure: string): (r: Response)
    ensures r.status == 404 <==> result.Rows? && result.rows == []
    ensures result.Rows? && result.rows == [] ==> r.body == ErrorBody(notFound)
    ensures result.Rows? && result.rows != [] ==> r == Response(200, Obj(result.rows[0]))
    ensures result.DbError? ==> r == Response(500, ErrorBody(failure))
  {
    match result
    case Rows(rows) =>
      if |rows| == 0 then Response(404, ErrorBody(notFound)) else Response(200, Obj(rows[0]))
    case DbError => Response(500, ErrorBody(failure))
  }

  /** A list query and a lookup differ on an empty result: the list is 200 with `[]`, the lookup
      404. Otherwise the lookup's body is the first element of the list's body, and both are 500
      when the query throws. */
  lemma ListVersusRow(result: DbResult, notFound: string, failure: string)
    ensures result.Rows? && result.rows == [] ==>
              ListResponse(result, failure) == Response(200, Arr([])) && RowResponse(result, notFound, failure).status == 404
    ensures result.Rows? && result.rows != [] ==>
              |ListResponse(result, failure).body.items| == |result.rows| &&
              RowResponse(result, notFound, failure).body == ListResponse(result, failure).body.items[0]
    ensures result.DbError? ==> ListResponse(result, failure) == RowResponse(result, notFound, failure)
  {
  }

  /** The create handlers: 201 with the first returned row (`INSERT ... RETURNING *` returns the
      inserted one; without a row the body is `undefined`), 500 when the query throws. */
  function CreatedResponse(result: DbResult, failure: string): (r: Response)
    ensures r.status == 201 <==> result.Rows?
    ensures result.Rows? && result.rows == [] ==> r.body == Undefined
    ensures result.DbError? ==> r == Response(500, ErrorBody(failure))
    ensures result.Rows? && result.rows != [] ==> r.body == Obj(result.rows[0])
  {
    match result
    case Rows(rows) => if |rows| == 0 then Response(201, Undefined) else Response(201, Obj(rows[0]))
    case DbError => Response(500, ErrorBody(failure))
  }

  /** A create and a lookup return the same first row; they differ in the status (201, 200) and
      on an empty result, where the create still answers 201 with no body and the lookup 404. */
  lemma CreatedVersusRow(result: DbResult, notFound: string, failure: string)
    ensures result.Rows? && result.rows != [] ==>
              CreatedResponse(result, failure) == RowResponse(result, notFound, failure).(status := 201)
    ensures result.Rows? && result.rows == [] ==>
              CreatedResponse(result, failure) == Response(201, Undefined) && RowResponse(result, notFound, failure).status == 404
    ensures result.DbError? ==> CreatedResponse(result, failure) == RowResponse(result, notFound, failure)
  {
  }

  /** How an `INSERT` handler reads one field of the request body: as received, through
      `JSON.stringify`, or with a destructuring default (`{ status = 'active' } = req.body`). */
  datatype Field = Plain(name: string) | Stringified(name: string) | Defaulted(name: string, default: JsValue)

  /** The parameter an `INSERT` binds for one field. */
  function FieldParam(body: Row, f: Field): (p: Param)
    ensures f.Plain? ==> p == Value(Get(body, f.name))
    ensures f.Stringified? ==> p == Json(Get(body, f.name))
    ensures f.Defaulted? && Get(body, f.name).Undefined? ==> p == Value(f.default)
    ensures f.Defaulted? && !Get(body, f.name).Undefined? ==> p == Value(Get(body, f.name))
  {
    match f
    case Plain(name) => Value(Get(body, name))
    case Stringified(name) => Json(Get(body, name))
    case Defaulted(name, d) => Value(DefaultIfUndefined(Get(body, name), d))
  }

  /** A defaulted field binds the default only when the body lacks the value or already holds the
      default; it binds what a plain field would unless the value is missing and the default is
      not itself undefined. A `null` is kept, unlike with `||`. */
  lemma DefaultOnlyForUndefined(body: Row, name: string, d: JsValue)
    ensures FieldParam(body, Defaulted(name, d)) == Value(d) <==> name !in body || body[name].Undefined? || body[name] == d
    ensures FieldParam(body, Defaulted(name, d)) == FieldParam(body, Plain(name)) <==>
              (name in body && !body[name].Undefined?) || d.Undefined?
    ensures name in body && body[name] == Null ==> FieldParam(body, Defaulted(name, d)) == Value(Null)
  {
  }

  /** The parameter list of an `INSERT`: `$i` is bound to the i-th field. */
  function InsertParams(body: Row, fields: seq<Field>): (params: seq<Param>)
    ensures |params| == |fields|
    ensures forall i :: 0 <= i < |fields| ==> params[i] == FieldParam(body, fields[i])
  {
    seq(|fields|, i requires 0 <= i < |fields| => FieldParam(body, fields[i]))
  }

  /** A socket.io broadcast: the event name and its payload. */
  datatype Event = Event(name: string, payload: map<string, JsValue>)
}
