/**
 The static tool manifest that `get_tools` returns: one entry per
 operation, with a description and a JSON-schema-like parameter object.
 */
module Tools {
  import opened JsValue

  /** A parameter's schema: its type and description. */
  function Property(kind: string, description: string): Json {
    JObj([("type", JStr(kind)), ("description", JStr(description))])
  }

  /** One manifest entry. The `required` member is written only for the
      entries that have parameters; no entry carries an empty list. */
  function Tool(description: string, properties: seq<(string, Json)>, required: seq<string>): Json {
    var schema := [("type", JStr("object")), ("properties", JObj(properties))];
    var requiredMember :=
      if |required| == 0 then []
      else [("required", JArr(seq(|required|, i requires 0 <= i < |required| => JStr(required[i]))))];
    JObj([("description", JStr(description)), ("parameters", JObj(schema + requiredMember))])
  }

  function QueryTool(): Json {
    Tool("MySQL 데이터베이스에서 쿼리를 실행합니다",
         [("sql", Property("string", "실행할 SQL 쿼리")),
          ("params", JObj([("type", JStr("array")),
                           ("description", JStr("쿼리 매개변수")),
                           ("items", JObj([("type", JStr("string"))]))]))],
         ["sql"])
  }

  function ListTablesTool(): Json {
    Tool("MySQL 데이터베이스의 모든 테이블을 나열합니다", [], [])
  }

  function DescribeTableTool(): Json {
    Tool("MySQL 테이블의 구조를 설명합니다",
         [("table", Property("string", "구조를 확인할 테이블 이름"))],
         ["table"])
  }

  function ListDatabasesTool(): Json {
    Tool("서버에서 접근 가능한 모든 데이터베이스 목록을 가져옵니다", [], [])
  }

  function UseDatabaseTool(): Json {
    Tool("다른 데이터베이스로 전환합니다",
         [("database", Property("string", "전환할 데이터베이스 이름"))],
         ["database"])
  }

  function StatusTool(): Json {
    Tool("현재 데이터베이스 연결 상태를 확인합니다", [], [])
  }

  /** The manifest object, keyed by operation name in declaration order. */
  function Manifest(): Json {
    JObj([("query", QueryTool()),
          ("list_tables", ListTablesTool()),
          ("describe_table", DescribeTableTool()),
          ("list_databases", ListDatabasesTool()),
          ("use_database", UseDatabaseTool()),
          ("status", StatusTool())])
  }

  /** The `required` list of a manifest entry: the parameters a caller must
      supply. An entry without the member requires nothing. */
  function RequiredParams(tool: Json): seq<string> {
    match Prop(tool, "parameters")
    case Some(JObj(schema)) =>
      (match Lookup(schema, "required")
       case Some(JArr(items)) =>
         seq(|items|, i requires 0 <= i < |items| => if items[i].JStr? then items[i].s else "")
       case _ => [])
    case _ => []
  }

  /** Reading the `required` list back out of an entry gives the list it
      was built with. */
  lemma RequiredParamsOfTool(description: string, properties: seq<(string, Json)>, required: seq<string>)
    ensures RequiredParams(Tool(description, properties, required)) == required
  {
    var tool := Tool(description, properties, required);
    LookupSingle(tool.members, "parameters", 1);
    var schema := tool.members[1].1.members;
    if |required| > 0 {
      LookupSingle(schema, "required", 2);
    } else {
      assert |schema| == 2;
    }
  }
}
