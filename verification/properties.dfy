/**
 What the request-decision layer promises, stated over `Dispatch`,
 `Complete` and `Serve` for every input line, environment and driver
 outcome.
 */
module Properties {
  import opened JsValue
  import opened Text
  import opened Protocol
  import opened Handlers
  import Tools

  /** A request line whose `method` field is `name`. */
  predicate Asks(input: Json, req: Request, name: string) {
    ReadRequest(input) == Some(req) && req.methodName == Some(JStr(name))
  }

  predicate IsErrorReply(s: Step, message: string) {
    s.Reply? && s.response.body == Error(message)
  }

  /** The fixed error messages are told apart by their first letter, and
      the read-only message from the unsupported-method ones by its
      nineteenth character. */
  lemma MessagesDiffer(suffix: string)
    ensures (Unsupported + suffix)[0] == 'U' && Unsupported[18] == ':' && (Unsupported + suffix)[18] == ':'
    ensures SqlRequired[0] == 'S' && SelectOnly[18] == 's'
    ensures TableRequired[0] == 'T' && DatabaseRequired[0] == 'D'
  {
  }

  // ---------------------------------------------------------------------
  // Dispatch

  /** A line `JSON.parse` rejects, or the line `null`, gets no response.
      Otherwise there are two silent cases: a read-only `query` whose
      truthy `sql` is not a string, on which `trim` throws, and an
      unrecognised method whose conversion to a string for the error
      message throws. */
  lemma SilentExactly(line: Option<Json>, env: Env)
    ensures Dispatch(line, env).NoResponse? <==>
      || line.None?
      || line.value.JNull?
      || (var req := ReadRequest(line.value).value;
          var sql := Param(req, "sql");
          || (&& req.methodName == Some(JStr("query"))
              && Truthy(sql) && !sql.value.JStr? && ReadOnly(env.readOnlyVar))
          || (!Recognised(req.methodName) && req.methodName.Some? && StringThrows(req.methodName.value)))
  {
    if line.Some? && !line.value.JNull? {
      var req := ReadRequest(line.value).value;
      DispatchRoutes(line.value, req, env);
      RouteByName(req, env);
    }
  }

  /** An unrecognised method is answered at once with
      "Unsupported method: " followed by the method as a string, under the
      request's id, or not at all when that conversion throws; a recognised
      one never gets this error. */
  lemma UnsupportedMethod(input: Json, req: Request, env: Env)
    requires ReadRequest(input) == Some(req)
    ensures !Recognised(req.methodName) && ToJsString(req.methodName).Some? ==>
      Dispatch(Some(input), env) == Reply(Response(req.id, Error(Unsupported + ToJsString(req.methodName).value)))
    ensures !Recognised(req.methodName) && req.methodName.Some? && StringThrows(req.methodName.value) ==>
      Dispatch(Some(input), env) == NoResponse
    ensures Recognised(req.methodName) ==>
      var s := Dispatch(Some(input), env);
      !(s.Reply? && s.response.body.Error? && StartsWith(s.response.body.message, Unsupported))
  {
    DispatchRoutes(input, req, env);
    RouteByName(req, env);
    MessagesDiffer("");
  }

  /** A line object without a `method` member is answered under its id
      as the unsupported method "undefined". */
  lemma MissingMethod(members: seq<(string, Json)>, env: Env)
    requires Lookup(members, "method").None?
    ensures Dispatch(Some(JObj(members)), env) ==
      Reply(Response(Lookup(members, "id"), Error("Unsupported method: undefined")))
  {
    var req := ReadRequest(JObj(members)).value;
    DispatchRoutes(JObj(members), req, env);
    RouteUnsupported(req, env);
    assert Unsupported + "undefined" == "Unsupported method: undefined";
  }

  /** A method that is an object with its own `toString` member cannot be
      converted for the error message, so the line gets no response. */
  lemma MethodWithOwnToString(env: Env)
    ensures Dispatch(Some(JObj([("id", JNum(1)), ("method", JObj([("toString", JNum(0))]))])), env)
      == NoResponse
  {
    var members := [("id", JNum(1)), ("method", JObj([("toString", JNum(0))]))];
    LookupSingle(members, "id", 0);
    LookupSingle(members, "method", 1);
    LookupSingle([("toString", JNum(0))], "toString", 0);
    var req := Request(Some(JNum(1)), Some(JObj([("toString", JNum(0))])), None);
    DispatchRoutes(JObj(members), req, env);
    RouteUnsupported(req, env);
  }

  /** A numeric method is answered, without an id, with
      "Unsupported method: " followed by the number's canonical decimal
      text, the one text of that form that reads back as the number. */
  lemma NumericMethod(n: int, env: Env)
    ensures
      var s := Dispatch(Some(JObj([("method", JNum(n))])), env);
      && s.Reply? && s.response.id.None? && s.response.body.Error?
      && StartsWith(s.response.body.message, Unsupported)
      && CanonicalDecimal(s.response.body.message[|Unsupported|..])
      && ParseDecimal(s.response.body.message[|Unsupported|..]) == Some(n)
    ensures forall t :: CanonicalDecimal(t) && ParseDecimal(t) == Some(n) ==>
      Dispatch(Some(JObj([("method", JNum(n))])), env).response.body.message == Unsupported + t
  {
    var line := [("method", JNum(n))];
    LookupSingle(line, "method", 0);
    var req := Request(None, Some(JNum(n)), None);
    DispatchRoutes(JObj(line), req, env);
    RouteUnsupported(req, env);
    var text := ToJsString(Some(JNum(n))).value;
    assert (Unsupported + text)[..|Unsupported|] == Unsupported;
    assert (Unsupported + text)[|Unsupported|..] == text;
    forall t | CanonicalDecimal(t) && ParseDecimal(t) == Some(n)
      ensures Unsupported + text == Unsupported + t
    {
      CanonicalUnique(text, t);
    }
  }

  /** Two concrete lines: a missing method reads "undefined" and a number
      is written in decimal. */
  lemma UnsupportedMethodText(env: Env)
    ensures Dispatch(Some(JObj([("id", JNum(7))])), env)
      == Reply(Response(Some(JNum(7)), Error("Unsupported method: undefined")))
    ensures Dispatch(Some(JObj([("method", JNum(42))])), env)
      == Reply(Response(None, Error("Unsupported method: 42")))
  {
    LookupSingle([("id", JNum(7))], "id", 0);
    MissingMethod([("id", JNum(7))], env);
    LookupSingle([("method", JNum(42))], "method", 0);
    var second := Request(None, Some(JNum(42)), None);
    DispatchRoutes(JObj([("method", JNum(42))]), second, env);
    RouteUnsupported(second, env);
    assert NatToDecimal(42) == NatToDecimal(4) + [DigitChar(2)] == "42";
    assert Unsupported + "42" == "Unsupported method: 42";
  }

  /** A line holding a JSON value other than an object or null (a number,
      a string, an array) has no method and no id: it is answered, without
      an id, as an unsupported method "undefined". */
  lemma NonObjectLine(input: Json, env: Env)
    requires !input.JObj? && !input.JNull?
    ensures Dispatch(Some(input), env) == Reply(Response(None, Error("Unsupported method: undefined")))
  {
    DispatchRoutes(input, Request(None, None, None), env);
    RouteUnsupported(Request(None, None, None), env);
    assert Unsupported + "undefined" == "Unsupported method: undefined";
  }

  /** `get_tools` answers with the static manifest and sends nothing to the
      database. */
  lemma GetToolsAnswersManifest(input: Json, req: Request, env: Env)
    requires Asks(input, req, "get_tools")
    ensures Dispatch(Some(input), env) == Reply(Response(req.id, Result(JObj([("tools", Tools.Manifest())]))))
  {
    DispatchRoutes(input, req, env);
    RouteGetTools(req, env);
  }

  /** A `query` without a truthy `sql` is refused, read-only or not; this
      check comes before the read-only gate. */
  lemma QueryNeedsSql(input: Json, req: Request, env: Env)
    requires Asks(input, req, "query")
    requires !Truthy(Param(req, "sql"))
    ensures IsErrorReply(Dispatch(Some(input), env), SqlRequired)
    ensures Dispatch(Some(input), env) == Dispatch(Some(input), env.(readOnlyVar := Some("true")))
  {
    DispatchRoutes(input, req, env);
    RouteQuery(req, env);
    DispatchRoutes(input, req, env.(readOnlyVar := Some("true")));
    RouteQuery(req, env.(readOnlyVar := Some("true")));
  }

  /** A string statement is refused by the read-only gate exactly when the
      variable is "true" and the statement does not start with "select". */
  lemma ReadOnlyGate(input: Json, req: Request, env: Env, sql: string)
    requires Asks(input, req, "query")
    requires Param(req, "sql") == Some(JStr(sql)) && sql != ""
    ensures IsErrorReply(Dispatch(Some(input), env), SelectOnly) <==>
      ReadOnly(env.readOnlyVar) && !IsSelect(sql)
  {
    DispatchRoutes(input, req, env);
    RouteQuery(req, env);
  }

  /** Unless the variable is exactly "true", no line is ever refused by the
      read-only gate. */
  lemma WritableNeverRefusesStatements(line: Option<Json>, env: Env)
    requires !ReadOnly(env.readOnlyVar)
    ensures !IsErrorReply(Dispatch(line, env), SelectOnly)
  {
    if line.Some? && !line.value.JNull? {
      var req := ReadRequest(line.value).value;
      DispatchRoutes(line.value, req, env);
      RouteByName(req, env);
      var text := ToJsString(req.methodName);
      if text.Some? {
        MessagesDiffer(text.value);
      }
    }
  }

  /** Only the exact string "true" turns read-only mode on. */
  lemma ReadOnlyOnlyForTrue()
    ensures ReadOnly(Some("true"))
    ensures !ReadOnly(None) && !ReadOnly(Some("TRUE")) && !ReadOnly(Some("1")) && !ReadOnly(Some(" true"))
  {
  }

  /** An accepted query sends its statement unchanged with its `params`,
      or an empty array when `params` is falsy. */
  lemma AcceptedQuery(input: Json, req: Request, env: Env)
    requires Asks(input, req, "query")
    requires Truthy(Param(req, "sql"))
    requires ReadOnly(env.readOnlyVar) ==>
      Param(req, "sql").value.JStr? && IsSelect(Param(req, "sql").value.s)
    ensures Dispatch(Some(input), env) ==
      Await(QueryHandler, req.id, DbCall(Param(req, "sql").value, Some(OrElse(Param(req, "params"), JArr([])))))
    ensures !Truthy(Param(req, "params")) ==> Dispatch(Some(input), env).call.values == Some(JArr([]))
  {
    DispatchRoutes(input, req, env);
    RouteQuery(req, env);
  }

  /** Leading whitespace and letter case do not matter to the gate. */
  lemma MixedCaseSelectPasses()
    ensures IsSelect("  SeLeCt 1")
  {
    var ws, q := "  ", "SeLeCt 1";
    var full := ws + q;
    assert full == "  SeLeCt 1";
    assert IsJsWhitespace(ws[0]) && IsJsWhitespace(ws[1]);
    MixedCaseKeyword();
    IsSelectIgnoresLeadingWhitespace(ws, q);
    assert IsSelect(full);
  }

  lemma MixedCaseKeyword()
    ensures IsSelect("SeLeCt 1")
  {
    var q := "SeLeCt 1";
    var w := Lower(q[..6]);
    assert w[0] == 's' && w[1] == 'e' && w[2] == 'l' && w[3] == 'e' && w[4] == 'c' && w[5] == 't';
    IsSelectUnindented(q);
  }

  /** A statement that starts with another keyword is refused. */
  lemma UpdateIsRefused()
    ensures !IsSelect("UPDATE t SET x=1")
  {
    var q := "UPDATE t SET x=1";
    assert Lower(q[..6])[0] == 'u';
    IsSelectUnindented(q);
  }

  /** A statement shorter than the keyword is refused. */
  lemma TruncatedKeywordIsRefused()
    ensures !IsSelect("  sel")
  {
    IsSelectIgnoresLeadingWhitespace("  ", "sel");
    assert "  " + "sel" == "  sel";
    IsSelectUnindented("sel");
  }

  /** In read-only mode a truthy `sql` that is not a string gets no
      response; without read-only mode it goes to the driver as it is. */
  lemma NonStringSql(input: Json, req: Request, env: Env)
    requires Asks(input, req, "query")
    requires Truthy(Param(req, "sql")) && !Param(req, "sql").value.JStr?
    ensures ReadOnly(env.readOnlyVar) ==> Dispatch(Some(input), env) == NoResponse
    ensures !ReadOnly(env.readOnlyVar) ==> Dispatch(Some(input), env).Await?
  {
    DispatchRoutes(input, req, env);
    RouteQuery(req, env);
  }

  /** `describe_table` needs a truthy `table`. The statement is always
      "DESCRIBE ??": the name travels only as the one placeholder value. */
  lemma DescribeTableCall(input: Json, req: Request, env: Env)
    requires Asks(input, req, "describe_table")
    ensures !Truthy(Param(req, "table")) ==> IsErrorReply(Dispatch(Some(input), env), TableRequired)
    ensures Truthy(Param(req, "table")) ==>
      Dispatch(Some(input), env) ==
        Await(DescribeTableHandler, req.id, DbCall(JStr("DESCRIBE ??"), Some(JArr([Param(req, "table").value]))))
  {
    DispatchRoutes(input, req, env);
    RouteDescribeTable(req, env);
  }

  /** `use_database` needs a truthy `database`. The statement is always
      "USE ??": the name travels only as the one placeholder value. */
  lemma UseDatabaseCall(input: Json, req: Request, env: Env)
    requires Asks(input, req, "use_database")
    ensures !Truthy(Param(req, "database")) ==> IsErrorReply(Dispatch(Some(input), env), DatabaseRequired)
    ensures Truthy(Param(req, "database")) ==>
      Dispatch(Some(input), env) ==
        Await(UseDatabaseHandler(Param(req, "database").value), req.id,
              DbCall(JStr("USE ??"), Some(JArr([Param(req, "database").value]))))
  {
    DispatchRoutes(input, req, env);
    RouteUseDatabase(req, env);
  }

  /** The listing methods take no parameters and send a fixed statement. */
  lemma ListingCalls(input: Json, req: Request, env: Env)
    requires ReadRequest(input) == Some(req)
    ensures req.methodName == Some(JStr("list_tables")) ==>
      Dispatch(Some(input), env) == Await(ListTablesHandler, req.id, DbCall(JStr("SHOW TABLES"), None))
    ensures req.methodName == Some(JStr("list_databases")) ==>
      Dispatch(Some(input), env) == Await(ListDatabasesHandler, req.id, DbCall(JStr("SHOW DATABASES"), None))
  {
    DispatchRoutes(input, req, env);
    if req.methodName == Some(JStr("list_tables")) {
      RouteListTables(req, env);
    } else if req.methodName == Some(JStr("list_databases")) {
      RouteListDatabases(req, env);
    }
  }

  /** A statement sent to the driver never has a user-supplied name spliced
      into it: for `describe_table` and `use_database` the statement is the
      same whatever the name. */
  lemma IdentifierNeverInStatement(a: Json, ra: Request, b: Json, rb: Request, name: string, env: Env)
    requires name == "describe_table" || name == "use_database"
    requires Asks(a, ra, name) && Asks(b, rb, name)
    ensures Dispatch(Some(a), env).Await? && Dispatch(Some(b), env).Await? ==>
      Dispatch(Some(a), env).call.sql == Dispatch(Some(b), env).call.sql
  {
    DispatchRoutes(a, ra, env);
    DispatchRoutes(b, rb, env);
    if name == "describe_table" {
      RouteDescribeTable(ra, env);
      RouteDescribeTable(rb, env);
    } else {
      RouteUseDatabase(ra, env);
      RouteUseDatabase(rb, env);
    }
  }

  // ---------------------------------------------------------------------
  // status

  /** `status` is answered at once and never with an error. */
  lemma StatusNeverFails(input: Json, req: Request, env: Env)
    requires Asks(input, req, "status")
    ensures Dispatch(Some(input), env) ==
      Reply(Response(req.id, Result(StatusReport(env.connection, env.readOnlyVar))))
  {
    DispatchRoutes(input, req, env);
    RouteStatus(req, env);
  }

  /** Without a live connection the report says so and nothing else. */
  lemma StatusDisconnected(conn: Connection, readOnlyVar: Option<string>)
    requires conn.Absent? || conn.state == "disconnected"
    ensures StatusReport(conn, readOnlyVar) ==
      JObj([("connected", JBool(false)), ("message", JStr("Not connected to database"))])
  {
  }

  /** With a live connection the report lists the configured host, port,
      user and database, and whether the variable is "true". The password
      never appears. */
  lemma StatusConnected(conn: Connection, readOnlyVar: Option<string>)
    requires conn.Present? && conn.state != "disconnected"
    ensures
      var report := StatusReport(conn, readOnlyVar);
      && Lookup(report.members, "connected") == Some(JBool(true))
      && Lookup(report.members, "host") == Some(conn.config.host)
      && Lookup(report.members, "port") == Some(conn.config.port)
      && Lookup(report.members, "user") == Some(conn.config.user)
      && Lookup(report.members, "database") == Some(conn.config.database)
      && Lookup(report.members, "readonly") == Some(JBool(readOnlyVar == Some("true")))
      && Lookup(report.members, "password").None?
  {
    StatusConnectedServer(conn, readOnlyVar);
    StatusConnectedSession(conn, readOnlyVar);
  }

  /** The first half of `StatusConnected`: the flag, the host and the port. */
  lemma StatusConnectedServer(conn: Connection, readOnlyVar: Option<string>)
    requires conn.Present? && conn.state != "disconnected"
    ensures
      var report := StatusReport(conn, readOnlyVar);
      && Lookup(report.members, "connected") == Some(JBool(true))
      && Lookup(report.members, "host") == Some(conn.config.host)
      && Lookup(report.members, "port") == Some(conn.config.port)
  {
    var m := StatusReport(conn, readOnlyVar).members;
    LookupSingle(m, "connected", 0);
    LookupSingle(m, "host", 1);
    LookupSingle(m, "port", 2);
  }

  /** The second half of `StatusConnected`: the user, the database, the
      read-only flag and the absent password. */
  lemma StatusConnectedSession(conn: Connection, readOnlyVar: Option<string>)
    requires conn.Present? && conn.state != "disconnected"
    ensures
      var report := StatusReport(conn, readOnlyVar);
      && Lookup(report.members, "user") == Some(conn.config.user)
      && Lookup(report.members, "database") == Some(conn.config.database)
      && Lookup(report.members, "readonly") == Some(JBool(readOnlyVar == Some("true")))
      && Lookup(report.members, "password").None?
  {
    var m := StatusReport(conn, readOnlyVar).members;
    LookupSingle(m, "user", 3);
    LookupSingle(m, "database", 4);
    LookupSingle(m, "readonly", 5);
  }

  /** The password does not affect the report. */
  lemma StatusIgnoresPassword(conn: Connection, readOnlyVar: Option<string>, password: Json)
    requires conn.Present?
    ensures StatusReport(conn, readOnlyVar) ==
      StatusReport(Present(conn.state, conn.config.(password := password)), readOnlyVar)
  {
  }

  // ---------------------------------------------------------------------
  // Completion

  /** A successful `use_database` names the database it switched to. */
  lemma UseDatabaseMessage(id: Option<Json>, name: string, result: DbResult)
    ensures Complete(UseDatabaseHandler(JStr(name)), id, Ok(result)) ==
      Some(Response(id, Result(JObj([("message", JStr("Successfully switched to database '" + name + "'"))]))))
  {
  }

  /** `query` and `describe_table` pass the driver's result through. */
  lemma ResultsPassThrough(handler: Handler, id: Option<Json>, result: DbResult)
    requires handler.QueryHandler? || handler.DescribeTableHandler?
    ensures Complete(handler, id, Ok(result)) == Some(Response(id, Result(ResultJson(result))))
    ensures result.RowSet? ==>
      var items := ResultJson(result).items;
      |items| == |result.rows| && forall i :: 0 <= i < |items| ==> items[i] == JObj(result.rows[i])
  {
  }

  /** A listing answers with one element per row, in row order: the row's
      first column value. */
  lemma ListingProjectsFirstColumn(handler: Handler, id: Option<Json>, rows: seq<Row>)
    requires handler.ListTablesHandler? || handler.ListDatabasesHandler?
    ensures
      var r := Complete(handler, id, Ok(RowSet(rows)));
      && r.Some? && r.value.id == id && r.value.body.Result? && r.value.body.value.JArr?
      && |r.value.body.value.items| == |rows|
      && forall i :: 0 <= i < |rows| ==> r.value.body.value.items[i] == FirstColumn(rows[i])
  {
  }

  /** A listing maps over whatever array the driver returns: it fails to
      answer exactly when an element is null, and otherwise answers one
      element per array element, in order, with an object element giving its
      first column. */
  lemma ListingOfArray(handler: Handler, id: Option<Json>, items: seq<Json>)
    requires handler.ListTablesHandler? || handler.ListDatabasesHandler?
    ensures
      var r := Complete(handler, id, Ok(Summary(JArr(items))));
      && (r.None? <==> exists i :: 0 <= i < |items| && items[i].JNull?)
      && (r.Some? ==>
            && r.value.body.Result? && r.value.body.value.JArr?
            && |r.value.body.value.items| == |items|
            && forall i :: 0 <= i < |items| && items[i].JObj? ==>
                 r.value.body.value.items[i] == FirstColumn(items[i].members))
  {
  }

  /** The same rows give the same listing whether the driver hands them over
      as a row set or as the plain array of row objects. */
  lemma ListingIgnoresEncoding(handler: Handler, id: Option<Json>, rows: seq<Row>)
    requires handler.ListTablesHandler? || handler.ListDatabasesHandler?
    ensures Complete(handler, id, Ok(Summary(ResultJson(RowSet(rows))))) ==
            Complete(handler, id, Ok(RowSet(rows)))
  {
  }

  /** `[{"Tables_in_db": "t"}]` given as a plain array lists `["t"]`. */
  lemma TablesFromPlainArray(id: Option<Json>)
    ensures Complete(ListTablesHandler, id, Ok(Summary(JArr([JObj([("Tables_in_db", JStr("t"))])])))) ==
            Some(Response(id, Result(JArr([JStr("t")]))))
  {
    LookupSingle([("Tables_in_db", JStr("t"))], "Tables_in_db", 0);
    var r := Complete(ListTablesHandler, id, Ok(Summary(JArr([JObj([("Tables_in_db", JStr("t"))])]))));
    assert r.value.body.value.items == [JStr("t")];
  }

  /** `SHOW TABLES` and `SHOW DATABASES` rows have a single column, so the
      listing is exactly the names. */
  lemma ListingOfNames(handler: Handler, id: Option<Json>, column: string, names: seq<string>)
    requires handler.ListTablesHandler? || handler.ListDatabasesHandler?
    ensures
      var rows := seq(|names|, i requires 0 <= i < |names| => [(column, JStr(names[i]))]);
      Complete(handler, id, Ok(RowSet(rows))) ==
        Some(Response(id, Result(JArr(seq(|names|, i requires 0 <= i < |names| => JStr(names[i]))))))
  {
    var rows := seq(|names|, i requires 0 <= i < |names| => [(column, JStr(names[i]))]);
    forall i | 0 <= i < |names| ensures FirstColumn(rows[i]) == JStr(names[i]) {
      LookupSingle(rows[i], column, 0);
    }
    ListingProjectsFirstColumn(handler, id, rows);
    var r := Complete(handler, id, Ok(RowSet(rows)));
    assert r.value.body.value.items == seq(|names|, i requires 0 <= i < |names| => JStr(names[i]));
  }

  // ---------------------------------------------------------------------
  // Whole lines

  /** Every response written for a line carries the line's id unchanged
      and exactly one of `result` or `error`. */
  lemma ResponseShape(line: Option<Json>, env: Env, driver: DbCall -> DbOutcome)
    ensures
      var r := Serve(line, env, driver);
      r.Some? ==>
        var j := Envelope(r.value);
        && Lookup(j.members, "id") == Prop(line.value, "id")
        && (Lookup(j.members, "result").Some? != Lookup(j.members, "error").Some?)
  {
  }

  /** A line that reaches the driver is answered with the driver's error
      message whenever the driver fails. */
  lemma DriverFailureAnswered(line: Option<Json>, env: Env, driver: DbCall -> DbOutcome)
    requires Dispatch(line, env).Await?
    requires driver(Dispatch(line, env).call).Err?
    ensures Serve(line, env, driver) ==
      Some(Response(Prop(line.value, "id"), Error(driver(Dispatch(line, env).call).message)))
  {
  }

  /** Switching to `shop` with request id 1. */
  lemma UseShopScenario(env: Env, driver: DbCall -> DbOutcome)
    requires driver(DbCall(JStr("USE ??"), Some(JArr([JStr("shop")])))).Ok?
    ensures
      var line := JObj([("id", JNum(1)), ("method", JStr("use_database")),
                        ("params", JObj([("database", JStr("shop"))]))]);
      Serve(Some(line), env, driver) ==
        Some(Response(Some(JNum(1)), Result(JObj([("message", JStr("Successfully switched to database 'shop'"))]))))
  {
    var params := [("database", JStr("shop"))];
    var line := [("id", JNum(1)), ("method", JStr("use_database")), ("params", JObj(params))];
    LookupSingle(line, "id", 0);
    LookupSingle(line, "method", 1);
    LookupSingle(line, "params", 2);
    var req := Request(Some(JNum(1)), Some(JStr("use_database")), Some(JObj(params)));
    assert ReadRequest(JObj(line)) == Some(req);
    LookupSingle(params, "database", 0);
    assert Param(req, "database") == Some(JStr("shop"));
    UseDatabaseCall(JObj(line), req, env);
    UseDatabaseMessage(Some(JNum(1)), "shop", driver(DbCall(JStr("USE ??"), Some(JArr([JStr("shop")])))).result);
    assert "Successfully switched to database '" + "shop" + "'" == "Successfully switched to database 'shop'";
  }

  /** Describing a table without naming it, with request id 2. */
  lemma DescribeWithoutTableScenario(env: Env, driver: DbCall -> DbOutcome)
    ensures
      var line := JObj([("id", JNum(2)), ("method", JStr("describe_table")), ("params", JObj([]))]);
      Serve(Some(line), env, driver) == Some(Response(Some(JNum(2)), Error("Table name is required")))
  {
    var line := [("id", JNum(2)), ("method", JStr("describe_table")), ("params", JObj([]))];
    LookupSingle(line, "id", 0);
    LookupSingle(line, "method", 1);
    LookupSingle(line, "params", 2);
    var req := Request(Some(JNum(2)), Some(JStr("describe_table")), Some(JObj([])));
    assert ReadRequest(JObj(line)) == Some(req);
    DescribeTableCall(JObj(line), req, env);
  }

  // ---------------------------------------------------------------------
  // The manifest against the dispatcher

  /** The manifest advertises exactly the six operations the dispatcher
      handles besides `get_tools` itself. */
  lemma ManifestMatchesDispatch()
    ensures Keys(Tools.Manifest().members) == Methods[1..]
  {
  }

  /** Calling an operation with no parameters: refused exactly for the
      three operations that need one. */
  lemma CalledWithoutParams(name: string, id: Option<Json>, env: Env)
    requires name in Methods[1..]
    ensures
      var s := Route(Request(id, Some(JStr(name)), None), env);
      (s.Reply? && s.response.body.Error?) <==>
        (name == "query" || name == "describe_table" || name == "use_database")
  {
    RouteByName(Request(id, Some(JStr(name)), None), env);
  }

  /** The `required` lists the manifest entries carry. */
  lemma QueryToolRequires()
    ensures Tools.RequiredParams(Tools.QueryTool()) == ["sql"]
  {
    var t := Tools.QueryTool();
    Tools.RequiredParamsOfTool(t.members[0].1.s, t.members[1].1.members[1].1.members, ["sql"]);
  }

  lemma DescribeTableToolRequires()
    ensures Tools.RequiredParams(Tools.DescribeTableTool()) == ["table"]
  {
    var t := Tools.DescribeTableTool();
    Tools.RequiredParamsOfTool(t.members[0].1.s, t.members[1].1.members[1].1.members, ["table"]);
  }

  lemma UseDatabaseToolRequires()
    ensures Tools.RequiredParams(Tools.UseDatabaseTool()) == ["database"]
  {
    var t := Tools.UseDatabaseTool();
    Tools.RequiredParamsOfTool(t.members[0].1.s, t.members[1].1.members[1].1.members, ["database"]);
  }

  lemma ListingToolsRequireNothing()
    ensures Tools.RequiredParams(Tools.ListTablesTool()) == []
    ensures Tools.RequiredParams(Tools.ListDatabasesTool()) == []
    ensures Tools.RequiredParams(Tools.StatusTool()) == []
  {
    var a := Tools.ListTablesTool();
    Tools.RequiredParamsOfTool(a.members[0].1.s, [], []);
    var b := Tools.ListDatabasesTool();
    Tools.RequiredParamsOfTool(b.members[0].1.s, [], []);
    var c := Tools.StatusTool();
    Tools.RequiredParamsOfTool(c.members[0].1.s, [], []);
  }

  /** An operation's manifest entry lists a required parameter exactly when
      the dispatcher refuses that operation called with no parameters. */
  lemma RequiredParamsEnforced(i: nat, id: Option<Json>, env: Env)
    requires i < |Tools.Manifest().members|
    ensures
      var s := Route(Request(id, Some(JStr(Tools.Manifest().members[i].0)), None), env);
      (|Tools.RequiredParams(Tools.Manifest().members[i].1)| > 0) <==> (s.Reply? && s.response.body.Error?)
  {
    ManifestMatchesDispatch();
    var name := Tools.Manifest().members[i].0;
    assert name == Keys(Tools.Manifest().members)[i] == Methods[i + 1];
    CalledWithoutParams(name, id, env);
    var tool := Tools.Manifest().members[i].1;
    if i == 0 {
      assert tool == Tools.QueryTool();
      QueryToolRequires();
    } else if i == 1 {
      assert tool == Tools.ListTablesTool();
      ListingToolsRequireNothing();
    } else if i == 2 {
      assert tool == Tools.DescribeTableTool();
      DescribeTableToolRequires();
    } else if i == 3 {
      assert tool == Tools.ListDatabasesTool();
      ListingToolsRequireNothing();
    } else if i == 4 {
      assert tool == Tools.UseDatabaseTool();
      UseDatabaseToolRequires();
    } else {
      assert tool == Tools.StatusTool();
      ListingToolsRequireNothing();
    }
  }
}
