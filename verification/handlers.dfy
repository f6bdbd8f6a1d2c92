/**
 The request-decision layer of the MySQL tool server. `Dispatch` takes one
 parsed input line and decides, without touching the database, whether to
 stay silent, to answer at once, or to send one statement to the driver;
 `Complete` turns the driver's answer to that statement into the response.
 */
module Handlers {
  import opened JsValue
  import opened Text
  import opened Protocol
  import Tools

  const SqlRequired := "SQL query is required"
  const SelectOnly := "Only SELECT queries are allowed in read-only mode"
  const TableRequired := "Table name is required"
  const DatabaseRequired := "Database name is required"
  const NotConnected := "Not connected to database"
  const Unsupported := "Unsupported method: "

  /** The method names the handler recognises, in the order it tests them. */
  const Methods: seq<string> :=
    ["get_tools", "query", "list_tables", "describe_table", "list_databases", "use_database", "status"]

  /** The connection settings the driver was created with. */
  datatype Config = Config(host: Json, port: Json, user: Json, password: Json, database: Json)

  /** The process-wide connection: absent, or present in a driver state
      such as "connected", "authenticated" or "disconnected". */
  datatype Connection = Absent | Present(state: string, config: Config)

  /** What a request is decided against: the `MYSQL_READONLY` environment
      variable (`None` when unset) and the connection. */
  datatype Env = Env(readOnlyVar: Option<string>, connection: Connection)

  /** Read-only mode is on exactly when the variable is the string "true". */
  predicate ReadOnly(readOnlyVar: Option<string>) {
    readOnlyVar == Some("true")
  }

  /** Which callback waits for the driver. The `use_database` callback
      remembers the requested name for its success message. */
  datatype Handler =
    | QueryHandler
    | ListTablesHandler
    | DescribeTableHandler
    | ListDatabasesHandler
    | UseDatabaseHandler(database: Json)

  /** The arguments of one `connection.query` call: the statement, and the
      values for its placeholders when any are passed. */
  datatype DbCall = DbCall(sql: Json, values: Option<Json>)

  /** The outcome of handling one line before the database answers. */
  datatype Step =
    | NoResponse
    | Reply(response: Response)
    | Await(handler: Handler, id: Option<Json>, call: DbCall)

  /** A result row: the column values of the row object, in the order
      `Object.values` lists them. */
  type Row = seq<(string, Json)>

  /** What the driver reports for a statement that succeeded: a row set,
      or any other value, such as the summary object of a statement that
      returns no rows. Callbacks see only the JavaScript value `ResultJson`
      gives, so an array of row objects means the same under either form. */
  datatype DbResult = RowSet(rows: seq<Row>) | Summary(info: Json)

  /** The driver's answer: a result, or an error with its message. */
  datatype DbOutcome = Ok(result: DbResult) | Err(message: string)

  /** `(input.params || {})[key]`. */
  function Param(req: Request, key: string): (r: Option<Json>)
    ensures req.params.Some? && req.params.value.JObj? ==> r == Lookup(req.params.value.members, key)
    ensures (req.params.None? || !req.params.value.JObj?) ==> r.None?
  {
    Prop(OrElse(req.params, JObj([])), key)
  }

  function Fail(req: Request, message: string): Step {
    Reply(Response(req.id, Error(message)))
  }

  /** `query`: needs a truthy `sql`; in read-only mode the statement must
      pass the SELECT gate, and a truthy `sql` that is not a string makes
      `trim` throw, which the line handler swallows. */
  function ExecuteQuery(req: Request, readOnlyVar: Option<string>): Step {
    var sql := Param(req, "sql");
    var values := OrElse(Param(req, "params"), JArr([]));
    if !Truthy(sql) then Fail(req, SqlRequired)
    else if ReadOnly(readOnlyVar) && !sql.value.JStr? then NoResponse
    else if ReadOnly(readOnlyVar) && !IsSelect(sql.value.s) then Fail(req, SelectOnly)
    else Await(QueryHandler, req.id, DbCall(sql.value, Some(values)))
  }

  function ListTables(req: Request): Step {
    Await(ListTablesHandler, req.id, DbCall(JStr("SHOW TABLES"), None))
  }

  /** `describe_table`: needs a truthy `table`, passed as the one value of
      an identifier placeholder. */
  function DescribeTable(req: Request): Step {
    var table := Param(req, "table");
    if !Truthy(table) then Fail(req, TableRequired)
    else Await(DescribeTableHandler, req.id, DbCall(JStr("DESCRIBE ??"), Some(JArr([table.value]))))
  }

  function ListDatabases(req: Request): Step {
    Await(ListDatabasesHandler, req.id, DbCall(JStr("SHOW DATABASES"), None))
  }

  /** `use_database`: needs a truthy `database`, passed as the one value of
      an identifier placeholder. */
  function UseDatabase(req: Request): Step {
    var database := Param(req, "database");
    if !Truthy(database) then Fail(req, DatabaseRequired)
    else Await(UseDatabaseHandler(database.value), req.id,
               DbCall(JStr("USE ??"), Some(JArr([database.value]))))
  }

  /** The `status` report: disconnected, or the configured host, port, user
      and database together with the read-only mode. */
  function StatusReport(conn: Connection, readOnlyVar: Option<string>): Json {
    if conn.Absent? || conn.state == "disconnected" then
      JObj([("connected", JBool(false)), ("message", JStr(NotConnected))])
    else
      JObj([("connected", JBool(true)),
            ("host", conn.config.host),
            ("port", conn.config.port),
            ("user", conn.config.user),
            ("database", conn.config.database),
            ("readonly", JBool(ReadOnly(readOnlyVar)))])
  }

  /** The final branch of the chain: "Unsupported method: " followed by the
      method as a string. When that conversion throws, the line handler's
      `catch` swallows the error and nothing is answered. */
  function UnsupportedReply(req: Request): Step {
    match ToJsString(req.methodName)
    case None => NoResponse
    case Some(text) => Fail(req, Unsupported + text)
  }

  /** The dispatch chain: compare `input.method` with each name in turn. */
  function Route(req: Request, env: Env): (s: Step)
    ensures s.Reply? ==> s.response.id == req.id
    ensures s.Await? ==> s.id == req.id
  {
    if req.methodName == Some(JStr("get_tools")) then
      Reply(Response(req.id, Result(JObj([("tools", Tools.Manifest())]))))
    else if req.methodName == Some(JStr("query")) then ExecuteQuery(req, env.readOnlyVar)
    else if req.methodName == Some(JStr("list_tables")) then ListTables(req)
    else if req.methodName == Some(JStr("describe_table")) then DescribeTable(req)
    else if req.methodName == Some(JStr("list_databases")) then ListDatabases(req)
    else if req.methodName == Some(JStr("use_database")) then UseDatabase(req)
    else if req.methodName == Some(JStr("status")) then
      Reply(Response(req.id, Result(StatusReport(env.connection, env.readOnlyVar))))
    else UnsupportedReply(req)
  }

  /** The `method` field names one of the recognised methods. */
  predicate Recognised(m: Option<Json>) {
    m.Some? && m.value.JStr? && m.value.s in Methods
  }

  // Each name in the chain reaches its own handler, and any other value
  // reaches the final error.

  lemma RouteGetTools(req: Request, env: Env)
    requires req.methodName == Some(JStr("get_tools"))
    ensures Route(req, env) == Reply(Response(req.id, Result(JObj([("tools", Tools.Manifest())]))))
  {
  }

  lemma RouteQuery(req: Request, env: Env)
    requires req.methodName == Some(JStr("query"))
    ensures Route(req, env) == ExecuteQuery(req, env.readOnlyVar)
  {
  }

  lemma RouteListTables(req: Request, env: Env)
    requires req.methodName == Some(JStr("list_tables"))
    ensures Route(req, env) == ListTables(req)
  {
  }

  lemma RouteDescribeTable(req: Request, env: Env)
    requires req.methodName == Some(JStr("describe_table"))
    ensures Route(req, env) == DescribeTable(req)
  {
  }

  lemma RouteListDatabases(req: Request, env: Env)
    requires req.methodName == Some(JStr("list_databases"))
    ensures Route(req, env) == ListDatabases(req)
  {
  }

  lemma RouteUseDatabase(req: Request, env: Env)
    requires req.methodName == Some(JStr("use_database"))
    ensures Route(req, env) == UseDatabase(req)
  {
  }

  lemma RouteStatus(req: Request, env: Env)
    requires req.methodName == Some(JStr("status"))
    ensures Route(req, env) == Reply(Response(req.id, Result(StatusReport(env.connection, env.readOnlyVar))))
  {
  }

  lemma RouteUnsupported(req: Request, env: Env)
    requires !Recognised(req.methodName)
    ensures Route(req, env) == UnsupportedReply(req)
  {
  }

  /** `Route` for whichever name the request carries. */
  lemma RouteByName(req: Request, env: Env)
    ensures req.methodName == Some(JStr("get_tools")) ==>
      Route(req, env) == Reply(Response(req.id, Result(JObj([("tools", Tools.Manifest())]))))
    ensures req.methodName == Some(JStr("query")) ==> Route(req, env) == ExecuteQuery(req, env.readOnlyVar)
    ensures req.methodName == Some(JStr("list_tables")) ==> Route(req, env) == ListTables(req)
    ensures req.methodName == Some(JStr("describe_table")) ==> Route(req, env) == DescribeTable(req)
    ensures req.methodName == Some(JStr("list_databases")) ==> Route(req, env) == ListDatabases(req)
    ensures req.methodName == Some(JStr("use_database")) ==> Route(req, env) == UseDatabase(req)
    ensures req.methodName == Some(JStr("status")) ==>
      Route(req, env) == Reply(Response(req.id, Result(StatusReport(env.connection, env.readOnlyVar))))
    ensures !Recognised(req.methodName) ==> Route(req, env) == UnsupportedReply(req)
  {
    var m := req.methodName;
    if m == Some(JStr("get_tools")) { RouteGetTools(req, env); }
    else if m == Some(JStr("query")) { RouteQuery(req, env); }
    else if m == Some(JStr("list_tables")) { RouteListTables(req, env); }
    else if m == Some(JStr("describe_table")) { RouteDescribeTable(req, env); }
    else if m == Some(JStr("list_databases")) { RouteListDatabases(req, env); }
    else if m == Some(JStr("use_database")) { RouteUseDatabase(req, env); }
    else if m == Some(JStr("status")) { RouteStatus(req, env); }
    else { RouteUnsupported(req, env); }
  }

  /** Handling one input line; `None` is a line `JSON.parse` rejects.
      Whatever is answered, now or after the database call, is answered
      under the id the line carries. */
  function Dispatch(line: Option<Json>, env: Env): (s: Step)
    ensures line.None? || line.value.JNull? ==> s.NoResponse?
    ensures s.Reply? ==> line.Some? && s.response.id == Prop(line.value, "id")
    ensures s.Await? ==> line.Some? && s.id == Prop(line.value, "id")
  {
    match line
    case None => NoResponse
    case Some(input) =>
      match ReadRequest(input)
      case None => NoResponse
      case Some(req) => Route(req, env)
  }

  /** A line that yields a request goes down the dispatch chain. */
  lemma DispatchRoutes(input: Json, req: Request, env: Env)
    requires ReadRequest(input) == Some(req)
    ensures Dispatch(Some(input), env) == Route(req, env)
  {
  }

  /** `Object.values(row)[0]`; a row without columns gives undefined, which
      `JSON.stringify` writes as null inside an array. */
  function FirstColumn(row: Row): Json {
    if |row| == 0 then JNull
    else match Lookup(row, row[0].0) case Some(v) => v case None => JNull
  }

  /** `Object.values(item)[0]` for one element of the array a listing maps
      over: an object's first column, an array's first element, a string's
      first character. A number or boolean has no own values. Where the
      source has undefined, the array `JSON.stringify` writes holds null.
      A null element makes `Object.values` throw; see `MapThrows`. */
  function FirstValue(item: Json): Json {
    match item
    case JObj(members) => FirstColumn(members)
    case JArr(xs) => if |xs| == 0 then JNull else xs[0]
    case JStr(text) => if |text| == 0 then JNull else JStr([text[0]])
    case _ => JNull
  }

  /** `results.map(row => Object.values(row)[0])` throws: `results` is not
      an array and so has no `map`, or some element is null. */
  predicate MapThrows(results: Json) {
    !results.JArr? || exists i :: 0 <= i < |results.items| && results.items[i].JNull?
  }

  /** The listing callbacks' projection, `None` when it throws. */
  function Listing(results: Json): (r: Option<Json>)
    ensures r.None? <==> MapThrows(results)
    ensures r.Some? ==>
      && r.value.JArr? && |r.value.items| == |results.items|
      && forall i :: 0 <= i < |results.items| ==> r.value.items[i] == FirstValue(results.items[i])
  {
    if MapThrows(results) then None
    else Some(JArr(seq(|results.items|, i requires 0 <= i < |results.items| => FirstValue(results.items[i]))))
  }

  /** The driver's result as the response carries it unchanged: a row set
      is an array of row objects. */
  function ResultJson(result: DbResult): Json {
    match result
    case RowSet(rows) => JArr(seq(|rows|, i requires 0 <= i < |rows| => JObj(rows[i])))
    case Summary(info) => info
  }

  /** The driver callback of each handler. A listing callback maps over
      the result, which throws outside any `try` when the result is not an
      array or holds a null element; the `use_database` callback throws when the name does not
      convert to a string, which it reaches only with a driver that did not
      already fail converting the name for `USE ??`. No response is then
      written. */
  function Complete(handler: Handler, id: Option<Json>, outcome: DbOutcome): (r: Option<Response>)
    ensures r.Some? ==> r.value.id == id
    ensures outcome.Err? ==> r == Some(Response(id, Error(outcome.message)))
    ensures r.None? <==>
      && outcome.Ok?
      && (|| ((handler.ListTablesHandler? || handler.ListDatabasesHandler?) && MapThrows(ResultJson(outcome.result)))
          || (handler.UseDatabaseHandler? && StringThrows(handler.database)))
    ensures r.Some? && outcome.Ok? ==> r.value.body.Result?
  {
    match outcome
    case Err(message) => Some(Response(id, Error(message)))
    case Ok(result) =>
      match handler
      case QueryHandler => Some(Response(id, Result(ResultJson(result))))
      case DescribeTableHandler => Some(Response(id, Result(ResultJson(result))))
      case UseDatabaseHandler(database) =>
        (match ToJsString(Some(database))
         case None => None
         case Some(name) =>
           var message := "Successfully switched to database '" + name + "'";
           Some(Response(id, Result(JObj([("message", JStr(message))])))))
      case _ =>
        match Listing(ResultJson(result))
        case None => None
        case Some(names) => Some(Response(id, Result(names)))
  }

  /** One line from input to output: the response written for it, if any,
      with `driver` answering the one statement the line sends. */
  function Serve(line: Option<Json>, env: Env, driver: DbCall -> DbOutcome): (r: Option<Response>)
    ensures r.Some? ==> line.Some? && r.value.id == Prop(line.value, "id")
  {
    match Dispatch(line, env)
    case NoResponse => None
    case Reply(response) => Some(response)
    case Await(handler, id, call) => Complete(handler, id, driver(call))
  }
}
