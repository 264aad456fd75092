// The graph-level calls of lib/Graph.js: the Cypher query request and the
// shaping of its result rows, the id normalisation before deletes, and the
// node and relationship calls that go through autoBatch.

module Graph {
  import opened Values
  import ArgParser
  import Neo4jApi
  import AutoBatch
  import AutoBatchShapes
  import Base

  /** _dataArgsFormat. */
  const DataArgsFormat: seq<ArgParser.Item> := [
    ArgParser.Spec("batch", "", "", Some(BatchCtor), None, true, "", "", ""),
    ArgParser.Plain("data"),
    ArgParser.Spec("callback", "function", "", None, None, false, "", "", "")
  ]

  /** _idArgsFormat. */
  const IdArgsFormat: seq<ArgParser.Item> := [
    ArgParser.Spec("batch", "", "", Some(BatchCtor), None, true, "", "", ""),
    ArgParser.Plain("id"),
    ArgParser.Spec("callback", "function", "", None, None, false, "", "", "")
  ]

  /** _queryArgsFormat. */
  const QueryArgsFormat: seq<ArgParser.Item> := [
    ArgParser.Spec("batch", "", "", Some(BatchCtor), None, true, "", "", ""),
    ArgParser.Spec("profile", "boolean", "", None, None, true, "", "", ""),
    ArgParser.Spec("query", "string", "", None, None, false, "", "", ""),
    ArgParser.Spec("params", "object", "", None, None, true, "", "", ""),
    ArgParser.Spec("callback", "function", "", None, None, false, "", "", "")
  ]

  // --------------------------------------------------- argument binding

  /** _idArgsFormat and _dataArgsFormat have one optional item, the batch,
      and need no normalising. */
  lemma BatchedOptional(f: seq<ArgParser.Item>)
    requires f == IdArgsFormat || f == DataArgsFormat
    ensures ArgParser.CountOptional(f) == 1 && ArgParser.Normalize(f) == f
  {
    var counts := [0, 1, 1, 1];
    for k := 1 to 4
      invariant ArgParser.CountOptional(f[..k - 1]) == counts[k - 1]
    {
      assert f[..k][..k - 1] == f[..k - 1];
    }
    assert f[..3] == f;
    assert ArgParser.Normalize(f)[0] == f[0] && ArgParser.Normalize(f)[1] == f[1] && ArgParser.Normalize(f)[2] == f[2];
  }

  /** How the id and data calls bind their arguments: `(x, callback)` leaves
      the batch absent, `(batch, x, callback)` binds all three, and any other
      first argument of three, or a callback that is not a function, throws
      'Invalid Arguments'; a single argument is not enough. */
  lemma BatchedArguments(f: seq<ArgParser.Item>, b: Value, x: Value, cb: Value)
    requires f == IdArgsFormat || f == DataArgsFormat
    ensures var name := f[1].name;
      && ArgParser.Resolve(f, [x]) == ArgParser.Err(ArgParser.NotEnoughArguments)
      && ArgParser.Resolve(f, [x, cb]) ==
           (if cb.Func? then ArgParser.Ok(map["batch" := Undef, name := x, "callback" := cb])
            else ArgParser.Err(ArgParser.InvalidArguments))
      && ArgParser.Resolve(f, [b, x, cb]) ==
           (if b.BatchV? && cb.Func? then ArgParser.Ok(map["batch" := b, name := x, "callback" := cb])
            else ArgParser.Err(ArgParser.InvalidArguments))
  {
    BatchedOptional(f);
    var name := f[1].name;
    var two := [x, cb];
    assert ArgParser.Run(f, two, 1, 1) == ArgParser.Ok(ArgParser.Cursor(map["batch" := Undef], 0, 0, 1));
    assert ArgParser.Run(f, two, 1, 2) == ArgParser.Ok(ArgParser.Cursor(map["batch" := Undef, name := x], 1, 0, 1));
    var three := [b, x, cb];
    if b.BatchV? {
      assert ArgParser.Run(f, three, 1, 1) == ArgParser.Ok(ArgParser.Cursor(map["batch" := b], 1, 1, 0));
      assert ArgParser.Run(f, three, 1, 2) == ArgParser.Ok(ArgParser.Cursor(map["batch" := b, name := x], 2, 1, 0));
    } else {
      assert ArgParser.Run(f, three, 1, 1) == ArgParser.Err(ArgParser.InvalidArguments);
      ArgParser.RunStopsAtError(f, three, 1, 1, 3);
    }
  }

  /** _queryArgsFormat has three optional items: batch, profile and params. */
  lemma QueryOptional()
    ensures ArgParser.CountOptional(QueryArgsFormat) == 3 && ArgParser.Normalize(QueryArgsFormat) == QueryArgsFormat
  {
    var f := QueryArgsFormat;
    var counts := [0, 1, 2, 2, 3, 3];
    for k := 1 to 6
      invariant ArgParser.CountOptional(f[..k - 1]) == counts[k - 1]
    {
      assert f[..k][..k - 1] == f[..k - 1];
    }
    assert f[..5] == f;
    assert forall k | 0 <= k < 5 :: ArgParser.Normalize(f)[k] == f[k];
  }

  /** How query binds `(query, callback)`: batch, profile and params absent. */
  lemma QueryWithCallback(q: string, cb: Fn)
    ensures ArgParser.Resolve(QueryArgsFormat, [Str(q), Func(cb)]) ==
      ArgParser.Ok(map["batch" := Undef, "profile" := Undef, "query" := Str(q), "params" := Undef, "callback" := Func(cb)])
  {
    QueryOptional();
    var f := QueryArgsFormat;
    var a := [Str(q), Func(cb)];
    assert ArgParser.Run(f, a, 3, 1) == ArgParser.Ok(ArgParser.Cursor(map["batch" := Undef], 0, 0, 1));
    assert ArgParser.Run(f, a, 3, 2) == ArgParser.Ok(ArgParser.Cursor(map["batch" := Undef, "profile" := Undef], 0, 0, 2));
    assert ArgParser.Run(f, a, 3, 3) ==
      ArgParser.Ok(ArgParser.Cursor(map["batch" := Undef, "profile" := Undef, "query" := Str(q)], 1, 0, 2));
    assert ArgParser.Run(f, a, 3, 4) ==
      ArgParser.Ok(ArgParser.Cursor(map["batch" := Undef, "profile" := Undef, "query" := Str(q), "params" := Undef], 1, 0, 3));
  }

  /** How query binds `(query, params, callback)`: params is taken when it
      is an object (null and arrays included), and the call throws
      otherwise. */
  lemma QueryWithParams(q: string, p: Value, cb: Fn)
    ensures ArgParser.Resolve(QueryArgsFormat, [Str(q), p, Func(cb)]) ==
      if TypeOf(p) == "object"
      then ArgParser.Ok(map["batch" := Undef, "profile" := Undef, "query" := Str(q), "params" := p, "callback" := Func(cb)])
      else ArgParser.Err(ArgParser.InvalidArguments)
  {
    QueryOptional();
    var f := QueryArgsFormat;
    var a := [Str(q), p, Func(cb)];
    assert ArgParser.Run(f, a, 3, 1) == ArgParser.Ok(ArgParser.Cursor(map["batch" := Undef], 0, 0, 1));
    assert ArgParser.Run(f, a, 3, 2) == ArgParser.Ok(ArgParser.Cursor(map["batch" := Undef, "profile" := Undef], 0, 0, 2));
    assert ArgParser.Run(f, a, 3, 3) ==
      ArgParser.Ok(ArgParser.Cursor(map["batch" := Undef, "profile" := Undef, "query" := Str(q)], 1, 0, 2));
    if TypeOf(p) == "object" {
      assert ArgParser.Run(f, a, 3, 4) ==
        ArgParser.Ok(ArgParser.Cursor(map["batch" := Undef, "profile" := Undef, "query" := Str(q), "params" := p], 2, 1, 2));
    } else {
      assert ArgParser.Run(f, a, 3, 4) == ArgParser.Err(ArgParser.InvalidArguments);
    }
  }

  /** How query binds `(profile, query, callback)`: a boolean first argument
      is the profile flag. */
  lemma QueryWithProfile(profile: bool, q: string, cb: Fn)
    ensures ArgParser.Resolve(QueryArgsFormat, [Bool(profile), Str(q), Func(cb)]) ==
      ArgParser.Ok(map["batch" := Undef, "profile" := Bool(profile), "query" := Str(q), "params" := Undef, "callback" := Func(cb)])
  {
    QueryOptional();
    var f := QueryArgsFormat;
    var a := [Bool(profile), Str(q), Func(cb)];
    assert ArgParser.Run(f, a, 3, 1) == ArgParser.Ok(ArgParser.Cursor(map["batch" := Undef], 0, 0, 1));
    assert ArgParser.Run(f, a, 3, 2) == ArgParser.Ok(ArgParser.Cursor(map["batch" := Undef, "profile" := Bool(profile)], 1, 1, 1));
    assert ArgParser.Run(f, a, 3, 3) ==
      ArgParser.Ok(ArgParser.Cursor(map["batch" := Undef, "profile" := Bool(profile), "query" := Str(q)], 2, 1, 1));
    assert ArgParser.Run(f, a, 3, 4) ==
      ArgParser.Ok(ArgParser.Cursor(map["batch" := Undef, "profile" := Bool(profile), "query" := Str(q), "params" := Undef], 2, 1, 2));
  }

  // ------------------------------------------------------------ query

  /** The body of a Cypher request: the query, and the parameters or an
      empty object in their place, so that `params` is always sent. */
  function QueryBody(args: map<string, Value>): (body: Value)
    ensures body.Obj? && Get(body, "query") == Lookup(args, "query")
    ensures Truthy(Get(body, "params"))
    ensures Truthy(Lookup(args, "params")) ==> Get(body, "params") == Lookup(args, "params")
    ensures !Truthy(Lookup(args, "params")) ==> Get(body, "params") == Obj([])
  {
    var params := Lookup(args, "params");
    var props := [("query", Lookup(args, "query")), ("params", if Truthy(params) then params else Obj([]))];
    FindAt(props, 0);
    FindAt(props, 1);
    Obj(props)
  }

  /** The endpoint a query is posted to: the cypher endpoint joined with
      '?profile=true' when profiling, the name 'cypher' otherwise. */
  function QueryEndpoint(endpoints: map<string, Endpoint>, args: map<string, Value>): Value
  {
    if Truthy(Lookup(args, "profile"))
    then AutoBatch.AsValue(Neo4jApi.GetEndpoint(endpoints, Str("cypher"), Str("?profile=true")))
    else Str("cypher")
  }

  /** Profiling keeps the cypher endpoint and appends the query string to its
      path; otherwise the request goes to the registered cypher endpoint. */
  lemma QueryTarget(endpoints: map<string, Endpoint>, args: map<string, Value>)
    requires "cypher" in endpoints
    ensures var t := Neo4jApi.Target(endpoints, QueryEndpoint(endpoints, args));
      var cypher := endpoints["cypher"];
      && t.Some?
      && (!Truthy(Lookup(args, "profile")) ==> t.value == cypher)
      && (Truthy(Lookup(args, "profile")) ==>
            t.value.path == cypher.pathname + "?profile=true" && t.value.(path := cypher.path, href := cypher.href) == cypher)
  {
    if Truthy(Lookup(args, "profile")) {
      Neo4jApi.QuerySubPath(endpoints, "cypher", "?profile=true");
    }
  }

  /** query: one POST of the body to the query endpoint, on the caller's
      batch or sent at once. `batch` is the Batch object that a truthy
      `args.batch` refers to. */
  method Query(conn: Neo4jApi.Connection, args: map<string, Value>, batch: Neo4jApi.Batch?)
    returns (req: Neo4jApi.Request, threw: bool)
    requires batch != null <==> Truthy(Lookup(args, "batch"))
    modifies conn`wire, batch
    ensures req == Neo4jApi.Request(Neo4jApi.Target(conn.endpoints, QueryEndpoint(conn.endpoints, args)), "POST",
                                    QueryBody(args), Neo4jApi.Caller(Func(QueryCallbackFn(Lookup(args, "callback")))))
    ensures batch != null ==> !threw && batch.requests == old(batch.requests) + [req] && conn.wire == old(conn.wire)
    ensures batch == null ==> (threw <==> req.endpoint.None?)
    ensures batch == null ==> conn.wire == if threw then old(conn.wire) else old(conn.wire) + [req]
  {
    req, threw := conn.NewRequest(batch, QueryEndpoint(conn.endpoints, args), "POST", QueryBody(args),
                                  Neo4jApi.Caller(Func(QueryCallbackFn(Lookup(args, "callback")))));
  }

  // --------------------------------------------------- result shaping

  /** What a column's cells become: left as they are, or built into a Node,
      a Relationship or a Path. */
  datatype Shape = Raw | AsEntity(kind: Kind) | AsPath

  /** `row[c]` of a result row. */
  function Cell(row: Value, c: int): Value
  {
    if row.Arr? then At(row.elems, c) else Undef
  }

  /** The constructor chosen for a column from its cell in the first row: an
      object with a string `self` and an object `data` is a Relationship when
      its `start` is a string and a Node otherwise; an object with string
      `start` and `end` and an object `nodes` is a Path; anything else
      (null included) is kept raw. */
  function ColumnShape(cell: Value): (s: Shape)
    ensures !(Truthy(cell) && TypeOf(cell) == "object") ==> s == Raw
    ensures s.AsEntity? <==>
      Truthy(cell) && TypeOf(cell) == "object" &&
      TypeOf(Get(cell, "self")) == "string" && TypeOf(Get(cell, "data")) == "object"
    ensures s == AsEntity(RelationshipKind) <==> s.AsEntity? && TypeOf(Get(cell, "start")) == "string"
    ensures s == AsPath <==>
      Truthy(cell) && TypeOf(cell) == "object" && !s.AsEntity? &&
      TypeOf(Get(cell, "start")) == "string" && TypeOf(Get(cell, "end")) == "string" &&
      TypeOf(Get(cell, "nodes")) == "object"
  {
    if Truthy(cell) && TypeOf(cell) == "object" then
      if TypeOf(Get(cell, "self")) == "string" && TypeOf(Get(cell, "data")) == "object" then
        AsEntity(if TypeOf(Get(cell, "start")) == "string" then RelationshipKind else NodeKind)
      else if TypeOf(Get(cell, "start")) == "string" && TypeOf(Get(cell, "end")) == "string"
              && TypeOf(Get(cell, "nodes")) == "object" then
        AsPath
      else Raw
    else Raw
  }

  /** A cell converted by its column's shape; building an entity can throw. */
  function Convert(shape: Shape, cell: Value): Option<Value>
  {
    match shape
    case Raw => Some(cell)
    case AsEntity(kind) => Base.NewEntity(kind, cell)
    case AsPath => Some(PathV(cell))
  }

  /** The property names the columns are stored under: each column value
      converted to a string, as a property key is. */
  function ColumnNames(columns: seq<Value>): (names: seq<string>)
    ensures |names| == |columns|
  {
    seq(|columns|, c requires 0 <= c < |columns| => ToJsString(columns[c]))
  }

  /** The two steps of the row builder, passed around as values as query's
      callback passes its constructors: deciding a column's shape from its
      first-row cell, and converting a cell by that shape. */
  datatype Shaper = Shaper(shape: Value -> Shape, convert: (Shape, Value) -> Option<Value>)

  /** The shaper query's callback uses. */
  const QueryShaper := Shaper(ColumnShape, Convert)

  /** The first n column shapes pushed while reading row 0: column d's is
      decided from row 0's cell d. */
  predicate Decided(sh: Shaper, row0: Value, shapes: seq<Shape>, n: nat)
  {
    |shapes| == n && forall d :: 0 <= d < n ==> shapes[d] == sh.shape(Cell(row0, d))
  }

  /** The record of one row after its first n columns: every cell converted
      by the shape decided from row 0's cell of the same column and stored
      under its column's name, a later column overwriting an earlier one of
      the same name; None once a conversion throws. */
  function RecordOf(sh: Shaper, row0: Value, columns: seq<string>, row: Value, n: nat): Option<map<string, Value>>
    requires n <= |columns|
    decreases n
  {
    if n == 0 then Some(map[])
    else
      match RecordOf(sh, row0, columns, row, n - 1)
      case None => None
      case Some(m) =>
        match sh.convert(sh.shape(Cell(row0, n - 1)), Cell(row, n - 1))
        case None => None
        case Some(v) => Some(m[columns[n - 1] := v])
  }

  /** The records of the first n rows, all shaped by row 0's columns. */
  function ShapedRows(sh: Shaper, rows: seq<Value>, columns: seq<string>, n: nat): Option<seq<map<string, Value>>>
    requires n <= |rows|
    decreases n
  {
    if n == 0 then Some([])
    else
      match ShapedRows(sh, rows, columns, n - 1)
      case None => None
      case Some(rs) =>
        match RecordOf(sh, rows[0], columns, rows[n - 1], |columns|)
        case None => None
        case Some(m) => Some(rs + [m])
  }

  /** A record that was built has one key per column name, and every one of
      its cells converted without throwing. */
  lemma {:induction false} RecordKeys(sh: Shaper, row0: Value, columns: seq<string>, row: Value, n: nat)
    requires n <= |columns|
    requires RecordOf(sh, row0, columns, row, n).Some?
    ensures RecordOf(sh, row0, columns, row, n).value.Keys == set c | 0 <= c < n :: columns[c]
    ensures forall c :: 0 <= c < n ==> sh.convert(sh.shape(Cell(row0, c)), Cell(row, c)).Some?
    decreases n
  {
    if n > 0 {
      RecordKeys(sh, row0, columns, row, n - 1);
    }
  }

  /** Shaped rows are one record per row, each built with row 0's shapes. */
  lemma {:induction false} RowsAreRecords(sh: Shaper, rows: seq<Value>, columns: seq<string>, n: nat)
    requires n <= |rows|
    requires ShapedRows(sh, rows, columns, n).Some?
    ensures |ShapedRows(sh, rows, columns, n).value| == n
    ensures forall i :: 0 <= i < n ==>
      RecordOf(sh, rows[0], columns, rows[i], |columns|) == Some(ShapedRows(sh, rows, columns, n).value[i])
    decreases n
  {
    if n > 0 {
      RowsAreRecords(sh, rows, columns, n - 1);
    }
  }

  lemma {:induction false} RecordStopsAtError(sh: Shaper, row0: Value, columns: seq<string>, row: Value, i: nat, n: nat)
    requires i <= n <= |columns|
    requires RecordOf(sh, row0, columns, row, i).None?
    ensures RecordOf(sh, row0, columns, row, n).None?
    decreases n - i
  {
    if i < n {
      RecordStopsAtError(sh, row0, columns, row, i + 1, n);
    }
  }

  lemma {:induction false} RowsStopAtError(sh: Shaper, rows: seq<Value>, columns: seq<string>, i: nat, n: nat)
    requires i <= n <= |rows|
    requires ShapedRows(sh, rows, columns, i).None?
    ensures ShapedRows(sh, rows, columns, n).None?
    decreases n - i
  {
    if i < n {
      RowsStopAtError(sh, rows, columns, i + 1, n);
    }
  }

  /** Value of a column in a record: the converted cell of the last column
      bearing that name. */
  lemma {:induction false} RecordValue(sh: Shaper, row0: Value, columns: seq<string>, row: Value, n: nat, c: nat)
    requires c < n <= |columns|
    requires forall d :: c < d < n ==> columns[d] != columns[c]
    requires RecordOf(sh, row0, columns, row, n).Some?
    ensures columns[c] in RecordOf(sh, row0, columns, row, n).value
    ensures sh.convert(sh.shape(Cell(row0, c)), Cell(row, c)).Some?
    ensures RecordOf(sh, row0, columns, row, n).value[columns[c]] == sh.convert(sh.shape(Cell(row0, c)), Cell(row, c)).value
    decreases n
  {
    if c < n - 1 {
      RecordValue(sh, row0, columns, row, n - 1, c);
    }
  }

  /** A column whose first-row cell is null or a plain value stays raw in
      every row, even where a later row holds a node. */
  lemma RawColumnStaysRaw(rows: seq<Value>, columns: seq<string>, r: nat, c: nat)
    requires r < |rows| && c < |columns|
    requires !Truthy(Cell(rows[0], c))
    requires forall d :: c < d < |columns| ==> columns[d] != columns[c]
    requires ShapedRows(QueryShaper, rows, columns, |rows|).Some?
    ensures |ShapedRows(QueryShaper, rows, columns, |rows|).value| == |rows|
    ensures columns[c] in ShapedRows(QueryShaper, rows, columns, |rows|).value[r]
    ensures ShapedRows(QueryShaper, rows, columns, |rows|).value[r][columns[c]] == Cell(rows[r], c)
  {
    RowsAreRecords(QueryShaper, rows, columns, |rows|);
    RecordValue(QueryShaper, rows[0], columns, rows[r], |columns|, c);
  }

  /** A column of nodes in row 0 with null in a later row makes the whole
      shaping throw: `new Node(null)` reads `self` of null. */
  lemma LaterNullCellThrows(rows: seq<Value>, columns: seq<string>, r: nat, c: nat)
    requires 0 < r < |rows| && c < |columns|
    requires ColumnShape(Cell(rows[0], c)).AsEntity?
    requires Cell(rows[r], c) == Null
    ensures ShapedRows(QueryShaper, rows, columns, |rows|).None?
  {
    var kind := ColumnShape(Cell(rows[0], c)).kind;
    Base.NoEntityWithoutSelf(kind, Null);
    assert QueryShaper.convert(QueryShaper.shape(Cell(rows[0], c)), Cell(rows[r], c)).None?;
    if RecordOf(QueryShaper, rows[0], columns, rows[r], |columns|).Some? {
      RecordKeys(QueryShaper, rows[0], columns, rows[r], |columns|);
    }
    assert RecordOf(QueryShaper, rows[0], columns, rows[r], |columns|).None?;
    if ShapedRows(QueryShaper, rows, columns, |rows|).Some? {
      RowsAreRecords(QueryShaper, rows, columns, |rows|);
    }
  }

  /** The plan the results carry: the response's plan, attached inside the
      row loop, so only when there is at least one row. */
  function AttachedPlan(plan: Value, rowCount: nat): Option<Value>
  {
    if Truthy(plan) && rowCount > 0 then Some(plan) else None
  }

  /** The inner loop of query's callback for row r: each column's cell is
      converted and stored under the column's name; on row 0 the column's
      shape is decided first and pushed onto `constructors`. `threw` when a
      constructor throws. */
  method ShapeRow(sh: Shaper, rows: seq<Value>, columns: seq<string>, r: nat, constructors: seq<Shape>)
    returns (threw: bool, record: map<string, Value>, shapes: seq<Shape>)
    requires r < |rows|
    requires r == 0 ==> constructors == []
    requires r > 0 ==> Decided(sh, rows[0], constructors, |columns|)
    ensures threw <==> RecordOf(sh, rows[0], columns, rows[r], |columns|).None?
    ensures !threw ==> RecordOf(sh, rows[0], columns, rows[r], |columns|) == Some(record)
    ensures !threw ==> Decided(sh, rows[0], shapes, |columns|)
  {
    var row := rows[r];
    record := map[];
    shapes := constructors;
    var c := 0;
    while c < |columns|
      invariant 0 <= c <= |columns|
      invariant Decided(sh, rows[0], shapes, if r == 0 then c else |columns|)
      invariant RecordOf(sh, rows[0], columns, row, c) == Some(record)
    {
      if r == 0 {
        shapes := shapes + [sh.shape(Cell(row, c))];
      }
      var v := sh.convert(shapes[c], Cell(row, c));
      if v.None? {
        RecordStopsAtError(sh, rows[0], columns, row, c + 1, |columns|);
        return true, record, shapes;
      }
      record := record[columns[c] := v.value];
      c := c + 1;
    }
    threw := false;
  }

  /** The shaping loops of query's callback: one record per row with one
      entry per column, the column shapes taken from row 0. `threw` when a
      constructor throws, which leaves the callback uncalled. */
  method ShapeResults(sh: Shaper, rows: seq<Value>, columns: seq<string>, plan: Value)
    returns (threw: bool, records: seq<map<string, Value>>, attached: Option<Value>)
    ensures threw <==> ShapedRows(sh, rows, columns, |rows|).None?
    ensures !threw ==> Some(records) == ShapedRows(sh, rows, columns, |rows|)
    ensures !threw ==> attached == AttachedPlan(plan, |rows|)
  {
    var constructors: seq<Shape> := [];
    records := [];
    attached := None;
    var r := 0;
    while r < |rows|
      invariant 0 <= r <= |rows|
      invariant r == 0 ==> constructors == []
      invariant r > 0 ==> Decided(sh, rows[0], constructors, |columns|)
      invariant ShapedRows(sh, rows, columns, r) == Some(records)
      invariant attached == AttachedPlan(plan, r)
    {
      var failed, record;
      failed, record, constructors := ShapeRow(sh, rows, columns, r, constructors);
      if failed {
        RowsStopAtError(sh, rows, columns, r + 1, |rows|);
        return true, records, attached;
      }
      records := records + [record];
      if Truthy(plan) {
        attached := Some(plan);
      }
      r := r + 1;
    }
    threw := false;
  }

  /** What query's callback is called with. */
  datatype QueryOutcome =
    | QueryFailed(error: Neo4jApi.Error)
    | QueryRows(records: seq<map<string, Value>>, plan: Option<Value>)
    | Threw

  /** The rows or columns of a response: the array's elements, none for a
      value that is not an array. */
  function Elements(v: Value): seq<Value>
  {
    if v.Arr? then v.elems else []
  }

  /** query's completion: an error goes to the callback alone; a response is
      shaped from its `data`, `columns` and `plan`. */
  method CompleteQuery(c: Neo4jApi.Completion) returns (o: QueryOutcome)
    ensures c.Failed? ==> o == QueryFailed(c.error)
    ensures c.Succeeded? ==>
      var rows := Elements(Get(c.body, "data"));
      var shaped := ShapedRows(QueryShaper, rows, ColumnNames(Elements(Get(c.body, "columns"))), |rows|);
      && (o.Threw? <==> shaped.None?)
      && (shaped.Some? ==> o == QueryRows(shaped.value, AttachedPlan(Get(c.body, "plan"), |rows|)))
  {
    if c.Failed? {
      return QueryFailed(c.error);
    }
    var threw, records, attached := ShapeResults(QueryShaper, Elements(Get(c.body, "data")), ColumnNames(Elements(Get(c.body, "columns"))),
                                                  Get(c.body, "plan"));
    if threw {
      return Threw;
    }
    o := QueryRows(records, attached);
  }

  // ---------------------------------------------- id normalisation

  function KindCtor(kind: Kind): Ctor
  {
    if kind == NodeKind then NodeCtor else RelationshipCtor
  }

  /** `e instanceof K ? e.id : e`. */
  function IdFor(kind: Kind, e: Value): (r: Value)
    ensures !InstanceOf(r, KindCtor(kind))
    ensures InstanceOf(e, KindCtor(kind)) ==> r == Str(ValueOfEntity(e))
    ensures !InstanceOf(e, KindCtor(kind)) ==> r == e
  {
    if InstanceOf(e, KindCtor(kind)) then Str(e.id) else e
  }

  function ValueOfEntity(e: Value): string
    requires e.Entity?
  {
    Base.ValueOf(e)
  }

  /** deleteNode / deleteRelationship: an entity of the kind becomes its id;
      an array holding at least one such entity is mapped element-wise;
      anything else is left as it was. */
  function NormalizeIds(kind: Kind, id: Value): (r: Value)
  {
    if id.Arr? then
      if exists i :: 0 <= i < |id.elems| && InstanceOf(id.elems[i], KindCtor(kind)) then
        Arr(seq(|id.elems|, i requires 0 <= i < |id.elems| => IdFor(kind, id.elems[i])))
      else id
    else IdFor(kind, id)
  }

  /** The search for an entity only saves work: normalising is mapping IdFor
      over the array, or applying it to the single value. */
  lemma NormalizeIsMap(kind: Kind, id: Value)
    ensures NormalizeIds(kind, id) ==
      if id.Arr? then Arr(seq(|id.elems|, i requires 0 <= i < |id.elems| => IdFor(kind, id.elems[i])))
      else IdFor(kind, id)
  {
    if id.Arr? {
      var mapped := seq(|id.elems|, i requires 0 <= i < |id.elems| => IdFor(kind, id.elems[i]));
      if !exists i :: 0 <= i < |id.elems| && InstanceOf(id.elems[i], KindCtor(kind)) {
        assert mapped == id.elems;
      }
    }
  }

  /** After normalising no entity of the kind is left, and a second pass
      changes nothing. */
  lemma NormalizeRemovesEntities(kind: Kind, id: Value)
    ensures var r := NormalizeIds(kind, id);
      && !InstanceOf(r, KindCtor(kind))
      && (r.Arr? ==> id.Arr? && |r.elems| == |id.elems| &&
                     forall i :: 0 <= i < |r.elems| ==> !InstanceOf(r.elems[i], KindCtor(kind)))
      && NormalizeIds(kind, r) == r
  {
    NormalizeIsMap(kind, id);
    var r := NormalizeIds(kind, id);
    NormalizeIsMap(kind, r);
    if r.Arr? {
      assert forall i :: 0 <= i < |r.elems| ==> IdFor(kind, r.elems[i]) == r.elems[i];
      assert Arr(seq(|r.elems|, i requires 0 <= i < |r.elems| => IdFor(kind, r.elems[i]))) == r;
    }
  }

  /** Ids that are not entities of the kind, alone or in an array, pass
      through unchanged. */
  lemma PlainIdsUnchanged(kind: Kind, id: Value)
    requires !InstanceOf(id, KindCtor(kind))
    requires id.Arr? ==> forall i :: 0 <= i < |id.elems| ==> !InstanceOf(id.elems[i], KindCtor(kind))
    ensures NormalizeIds(kind, id) == id
  {
  }

  // ------------------------------------------------ autoBatch calls

  /** The factory that resolves an id under a named endpoint. */
  function Factory(name: string): Value
  {
    Func(EndpointFactoryFn(Str(name)))
  }

  /** createNode's call into autoBatch: POST of the data to 'node', results
      built into nodes. */
  function CreateNodeCall(args: map<string, Value>): (call: seq<Value>)
    ensures |call| == 5 && call[1] == Str("node") && call[2] == Str("POST") && call[3] == Lookup(args, "data")
    ensures call[4] == Func(NodeCallbackFn(Lookup(args, "callback")))
  {
    [Lookup(args, "batch"), Str("node"), Str("POST"), Lookup(args, "data"), Func(NodeCallbackFn(Lookup(args, "callback")))]
  }

  /** getNode / getRelationship: a GET through the factory for each id. */
  function GetCall(kind: Kind, args: map<string, Value>): (call: seq<Value>)
    ensures |call| == 6 && call[2] == Lookup(args, "id") && call[3] == Str("GET") && call[4] == Null
  {
    var name := if kind == NodeKind then "node" else "relationship";
    var callback := if kind == NodeKind then NodeCallbackFn(Lookup(args, "callback"))
                    else RelationshipCallbackFn(Lookup(args, "callback"));
    [Lookup(args, "batch"), Factory(name), Lookup(args, "id"), Str("GET"), Null, Func(callback)]
  }

  /** deleteNode / deleteRelationship: a DELETE through the factory for each
      normalised id, the callback told only of errors. */
  function DeleteCall(kind: Kind, args: map<string, Value>): (call: seq<Value>)
    ensures |call| == 6 && call[2] == NormalizeIds(kind, Lookup(args, "id")) && call[3] == Str("DELETE")
    ensures call[5] == Func(ErrorOnlyFn(Lookup(args, "callback")))
  {
    var name := if kind == NodeKind then "node" else "relationship";
    [Lookup(args, "batch"), Factory(name), NormalizeIds(kind, Lookup(args, "id")), Str("DELETE"), Null,
     Func(ErrorOnlyFn(Lookup(args, "callback")))]
  }

  /** Deleting an array of nodes: request i's endpoint is the node endpoint
      joined with the id of node i. */
  lemma DeleteTargetsEachId(endpoints: map<string, Endpoint>, kind: Kind, args: map<string, Value>, i: nat)
    requires Lookup(args, "id").Arr? && i < |Lookup(args, "id").elems|
    requires InstanceOf(Lookup(args, "id").elems[i], KindCtor(kind))
    ensures var call := DeleteCall(kind, args);
      var name := if kind == NodeKind then "node" else "relationship";
      AutoBatch.CallFactory(endpoints, call[1], AutoBatch.Spread(AutoBatch.ElementAt(call[2], i)))
        == AutoBatch.AsValue(Neo4jApi.GetEndpoint(endpoints, Str(name), Str(Lookup(args, "id").elems[i].id)))
  {
    NormalizeIsMap(kind, Lookup(args, "id"));
  }

  /** What autoBatch makes of createNode's call: the name 'node', POST and
      the node callback; an array of data is one request per element, any
      other data one request whose single result is passed on unwrapped; a
      function as data fits no parameter and the call throws. */
  lemma CreateNodeResolves(endpoints: map<string, Endpoint>, args: map<string, Value>, i: nat)
    ensures var data := Lookup(args, "data");
            var r := ArgParser.Resolve(AutoBatch.AutoBatchFormat, CreateNodeCall(args));
      && (r.Err? <==> data.Func?)
      && (r.Ok? ==>
            && Lookup(r.value, "batch") == Lookup(args, "batch") && Lookup(r.value, "method") == Str("POST")
            && Lookup(r.value, "callback") == Func(NodeCallbackFn(Lookup(args, "callback")))
            && AutoBatch.EndpointFor(endpoints, r.value, i) ==
                 AutoBatch.AsValue(Neo4jApi.GetEndpoint(endpoints, Str("node"), Undef))
            && AutoBatch.DeriveCount(r.value) == (if data.Arr? then (|data.elems|, false) else (1, true)))
      && (r.Ok? && !data.Arr? ==> AutoBatch.CarriedData(r.value, i) == data)
      && (data.Arr? && i < |data.elems| && data.elems[i] != Undef ==> AutoBatch.CarriedData(r.value, i) == data.elems[i])
  {
    var data := Lookup(args, "data");
    AutoBatchShapes.ResolveNamedCall(Lookup(args, "batch"), "node", "POST", data, NodeCallbackFn(Lookup(args, "callback")));
    var r := ArgParser.Resolve(AutoBatch.AutoBatchFormat, CreateNodeCall(args));
    if r.Ok? && !data.Arr? {
      AutoBatch.SingleDataEverywhere(r.value, i);
    }
  }

  /** What autoBatch makes of getNode's and getRelationship's call: GET with
      no body and the entity callback, through the factory for the entity
      endpoint. A single id is one request for that id whose result is
      passed on unwrapped; an array is one request per element. */
  lemma GetResolves(endpoints: map<string, Endpoint>, kind: Kind, args: map<string, Value>, i: nat)
    ensures var id := Lookup(args, "id");
            var name := if kind == NodeKind then "node" else "relationship";
            var r := ArgParser.Resolve(AutoBatch.AutoBatchFormat, GetCall(kind, args));
      && r.Ok?
      && Lookup(r.value, "batch") == Lookup(args, "batch") && Lookup(r.value, "method") == Str("GET")
      && Lookup(r.value, "callback") == Func(if kind == NodeKind then NodeCallbackFn(Lookup(args, "callback"))
                                             else RelationshipCallbackFn(Lookup(args, "callback")))
      && AutoBatch.CarriedData(r.value, i) == Null
      && (!id.Arr? ==>
            && AutoBatch.DeriveCount(r.value) == (1, true)
            && AutoBatch.EndpointFor(endpoints, r.value, i) == AutoBatch.AsValue(Neo4jApi.GetEndpoint(endpoints, Str(name), id)))
      && (id.Arr? ==> AutoBatch.DeriveCount(r.value) == (|id.elems|, false))
      && (id.Arr? && i < |id.elems| && id.elems[i] != Undef && !id.elems[i].Arr? ==>
            AutoBatch.EndpointFor(endpoints, r.value, i) == AutoBatch.AsValue(Neo4jApi.GetEndpoint(endpoints, Str(name), id.elems[i])))
  {
    var name := if kind == NodeKind then "node" else "relationship";
    var callback := if kind == NodeKind then NodeCallbackFn(Lookup(args, "callback"))
                    else RelationshipCallbackFn(Lookup(args, "callback"));
    var id := Lookup(args, "id");
    AutoBatchShapes.ResolveFactoryCall(Lookup(args, "batch"), EndpointFactoryFn(Str(name)), id, "GET", Null, callback);
    AutoBatchShapes.FactoryRequests(endpoints, Lookup(args, "batch"), Str(name), id, "GET", Null, callback, i);
  }

  /** What autoBatch makes of deleteNode's and deleteRelationship's call:
      DELETE with no body and a callback told only of errors, through the
      factory for the entity endpoint, for each id after normalising: an
      entity stands for its id. */
  lemma DeleteResolves(endpoints: map<string, Endpoint>, kind: Kind, args: map<string, Value>, i: nat)
    ensures var id := Lookup(args, "id");
            var name := if kind == NodeKind then "node" else "relationship";
            var r := ArgParser.Resolve(AutoBatch.AutoBatchFormat, DeleteCall(kind, args));
      && r.Ok?
      && Lookup(r.value, "batch") == Lookup(args, "batch") && Lookup(r.value, "method") == Str("DELETE")
      && Lookup(r.value, "callback") == Func(ErrorOnlyFn(Lookup(args, "callback")))
      && AutoBatch.CarriedData(r.value, i) == Null
      && (!id.Arr? ==>
            && AutoBatch.DeriveCount(r.value) == (1, true)
            && AutoBatch.EndpointFor(endpoints, r.value, i) ==
                 AutoBatch.AsValue(Neo4jApi.GetEndpoint(endpoints, Str(name), IdFor(kind, id))))
      && (id.Arr? ==> AutoBatch.DeriveCount(r.value) == (|id.elems|, false))
      && (id.Arr? && i < |id.elems| && id.elems[i] != Undef && !id.elems[i].Arr? ==>
            AutoBatch.EndpointFor(endpoints, r.value, i) ==
              AutoBatch.AsValue(Neo4jApi.GetEndpoint(endpoints, Str(name), IdFor(kind, id.elems[i]))))
  {
    var name := if kind == NodeKind then "node" else "relationship";
    var ids := NormalizeIds(kind, Lookup(args, "id"));
    NormalizeIsMap(kind, Lookup(args, "id"));
    AutoBatchShapes.ResolveFactoryCall(Lookup(args, "batch"), EndpointFactoryFn(Str(name)), ids, "DELETE", Null,
                                       ErrorOnlyFn(Lookup(args, "callback")));
    AutoBatchShapes.FactoryRequests(endpoints, Lookup(args, "batch"), Str(name), ids, "DELETE", Null,
                                    ErrorOnlyFn(Lookup(args, "callback")), i);
  }
}
