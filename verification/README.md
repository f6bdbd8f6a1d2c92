# MySQL tool server: request-decision layer

This project models the request-decision layer of `mysql-mcp.js`. That script
is a tool backend. It reads one JSON request per line from standard input and
answers each request with one JSON line of its own. A request names a `method`
(`get_tools`, `query`, `list_tables`, `describe_table`, `list_databases`,
`use_database` or `status`) and carries an `id` and optional `params`.

The model splits the work of one line into two pure functions:

- `Handlers.Dispatch` takes the parsed line (`None` when `JSON.parse` fails) and
  an environment: the `MYSQL_READONLY` variable and the connection. It returns
  one of three steps:
  - `NoResponse`: the line handler's `catch` swallows an exception;
  - `Reply(response)`: an immediate success or error;
  - `Await(handler, id, DbCall(sql, values))`: the single `connection.query`
    call the handler makes, together with the callback waiting for it.
- `Handlers.Complete` takes that callback, the request id and the driver's
  outcome, and returns the response the callback writes. It returns `None`
  when the callback itself throws.

`Handlers.Serve` composes the two for one line. A function argument stands in
for the driver. `Protocol.Envelope` builds the object that `sendSuccess` /
`sendError` pass to `JSON.stringify`.

Modules:

- `JsValue` (`jsvalue.dfy`): JSON values and the JavaScript operations the
  handler applies to them.
  - Property lookup follows `JSON.parse`: the last duplicate key wins.
  - Truthiness follows `!x` and `x || d`.
  - `String(x)` follows string concatenation and template literals. It
    throws for an object with its own `toString` member, since a parsed
    object has no callable members, and for an array that holds such an
    object at any depth.
- `Text` (`text.dfy`): `trim`, `toLowerCase`, `startsWith`, and the read-only
  gate built from them.
- `Protocol` (`protocol.dfy`): the request fields, the response and its
  envelope.
- `Tools` (`tools.dfy`): the static manifest returned by `get_tools`.
- `Handlers` (`handlers.dfy`): the dispatch chain, the six handlers, their
  driver callbacks and the status report.
- `Properties` (`properties.dfy`): lemmas about `Dispatch`, `Complete` and
  `Serve` that hold for every line, environment and driver outcome.

Behaviour of the code that the model keeps, even where a reader might expect
otherwise:

- Not every line is answered. Lines that fail to parse get no response. So
  does the line `null`, because `input.method` throws. So does a read-only
  `query` whose truthy `sql` is not a string, because `trim` throws. So does an
  unrecognised `method` whose conversion to a string throws, such as
  `{"toString":0}`. In each case the line handler's `catch` swallows the error
  (`Properties.SilentExactly`).
  Handlers therefore do not always answer exactly once.
- A line holding a number, a string or an array is answered. The answer has no
  `id` and says `Unsupported method: undefined` (`Properties.NonObjectLine`).
- Required parameters are tested for truthiness, not for presence. An empty
  string, `0`, `false` or `null` counts as missing.
- A listing returns each row's first column value, whatever that value is. A
  row without columns gives `null`. The result is not restricted to strings.
  Any array the driver returns is mapped the same way, whether or not it
  arrives as a row set.

The gate lower-cases ASCII letters only. This gives the same accept/refuse
decision as JavaScript's full `toLowerCase`. The only characters whose full
lower-case form begins with one of the letters of `select` are the ASCII
letters themselves. The characters that change length when lower-cased (for
example U+0130) begin with other letters.

## Model

| member | source | states |
|---|---|---|
| Handlers.Dispatch | mysql-mcp.js:95-119 | a line that fails to parse, or the line `null`, gets no response; every immediate answer and every driver call carries the id the line holds |
| Handlers.Complete | mysql-mcp.js:138-208 | every callback answers under the request's id; a driver error becomes an error with the driver's message verbatim; a success is always a result; there is no response exactly when a listing callback receives a value that is not an array or holds a null element, or a `use_database` callback succeeds for a name whose conversion to a string throws |
| Handlers.Route | mysql-mcp.js:99-115 | whatever the dispatch chain answers at once or sends to the driver carries the request's id |
| Handlers.Serve | mysql-mcp.js:95-119 | a response written for a line carries that line's id |
| Handlers.Param | mysql-mcp.js:124-126 | `(input.params \|\| {})[key]` is the object's member when `params` is an object, and undefined otherwise |
| Protocol.ReadRequest | mysql-mcp.js:97-114 | reading `id`, `method` and `params` fails exactly on the value `null`; a value that is not an object has none of the three |
| Protocol.Envelope | mysql-mcp.js:232-247 | the written object holds the id exactly when the request had one, and exactly one of `result` or `error`; an error is `{message}` with the message unchanged; no other member appears |
| Protocol.EnvelopeRoundTrip | mysql-mcp.js:232-247 | a client reading the written object back recovers the id and the result or error message exactly |
| Text.Trim | mysql-mcp.js:134 | `trim` removes exactly the leading and trailing ECMAScript whitespace and line terminators, and keeps the contiguous middle |
| Text.LeadingWhitespace | mysql-mcp.js:134 | the count of leading characters `trim` removes: all of them whitespace, and the next character is not |
| Text.TrailingWhitespace | mysql-mcp.js:134 | the count of trailing characters `trim` removes: all of them whitespace, and the character before them is not |
| Text.Lower | mysql-mcp.js:134 | ASCII `toLowerCase` keeps the length; each capital `A`-`Z` becomes the letter 32 code points above it, every other character is unchanged, and no capital is left in the result |
| Text.LowerIdempotent | mysql-mcp.js:134 | lower-casing an already lower-cased text changes nothing |
| Text.LeadingWhitespaceOfPrefixed | mysql-mcp.js:134 | whitespace put in front of a statement adds exactly its length to the leading whitespace |
| Text.TrimSkipsLeadingWhitespace | mysql-mcp.js:134 | whitespace put in front of a statement changes nothing in its trimmed form |
| Text.IsSelectIgnoresLeadingWhitespace | mysql-mcp.js:134 | the read-only gate gives the same decision with or without leading whitespace |
| Text.IsSelectIgnoresCase | mysql-mcp.js:134 | statements that lower-case to the same text get the same gate decision |
| Text.IsSelectByFirstWord | mysql-mcp.js:134 | the gate passes a statement exactly when its first six characters after leading whitespace spell `select` in any case |
| Text.IsSelectUnindented | mysql-mcp.js:134 | for a statement that does not start with whitespace, the gate decides on its first six characters alone |
| JsValue.LastIndex | mysql-mcp.js:97 | the member a lookup reads is the last one with the key, and there is none exactly when no member has the key |
| JsValue.Lookup | mysql-mcp.js:97 | a property of a parsed object is undefined exactly when no member has that key, and otherwise is the value of the last member with that key |
| JsValue.NatToDecimal | mysql-mcp.js:114 | the decimal form of a number is non-empty, all digits, and starts with `0` only for zero |
| JsValue.ToJsString | mysql-mcp.js:114 | the conversion throws exactly for an object with its own `toString` member or an array holding one at any depth; otherwise a missing value gives `undefined`, `null` and the booleans their names, a string itself, a number the canonical decimal text that reads back as that number, and any other object `[object Object]` |
| JsValue.IntRoundTrip | mysql-mcp.js:114 | the text written for an integer, sign included, reads back as that integer |
| JsValue.DecimalRoundTrip | mysql-mcp.js:114 | the decimal digits written for a numeric method in the error message read back as that number |
| Tools.RequiredParamsOfTool | mysql-mcp.js:24-92 | a manifest entry's `required` list reads back as the list it was built with, and as empty when the entry has none |
| Properties.SilentExactly | mysql-mcp.js:95-136 | nothing is answered before the database call exactly when the line fails to parse, is `null`, is a read-only `query` with a truthy non-string `sql`, or has an unrecognised method whose conversion to a string throws |
| Properties.UnsupportedMethod | mysql-mcp.js:99-117 | an unrecognised method that converts to a string is answered at once with `Unsupported method: ` plus that string, under the request's id, with no driver call; one whose conversion throws gets no response; a recognised method never gets that error |
| Properties.MissingMethod | mysql-mcp.js:97-114 | an object line without `method` is answered `Unsupported method: undefined` under its own id |
| Properties.NumericMethod | mysql-mcp.js:114 | for every integer, a numeric method is answered with `Unsupported method: ` followed by its canonical decimal text (no leading zero, no `-0`) that reads back as the number; any canonical text that reads back as the number gives the same message |
| JsValue.IntCanonical | mysql-mcp.js:114 | the text written for an integer has the canonical form: an optional minus sign, then digits with no leading zero except in `0` |
| JsValue.CanonicalUnique | mysql-mcp.js:114 | two canonical decimal texts that read back as the same integer are the same text, so each integer has exactly one |
| Properties.MethodWithOwnToString | mysql-mcp.js:114-117 | the line `{"id":1,"method":{"toString":0}}` gets no response |
| Properties.UnsupportedMethodText | mysql-mcp.js:114 | two concrete lines: one without a method is answered `Unsupported method: undefined` under id 7, and method 42 is answered `Unsupported method: 42` without an id |
| Properties.NonObjectLine | mysql-mcp.js:97-114 | a number, string or array line is answered without an id as the unsupported method `undefined` |
| Properties.GetToolsAnswersManifest | mysql-mcp.js:99-100 | `get_tools` answers `{tools}` with the static manifest under the request's id and sends nothing to the driver |
| Properties.QueryNeedsSql | mysql-mcp.js:124-131 | a `query` without a truthy `sql` is refused with `SQL query is required`, whether read-only mode is on or off |
| Properties.ReadOnlyGate | mysql-mcp.js:134-136 | a non-empty string statement is refused with the read-only message if and only if the variable is `"true"` and the statement fails the SELECT gate |
| Properties.WritableNeverRefusesStatements | mysql-mcp.js:134-136 | unless the variable is exactly `"true"`, no line at all is refused with the read-only message |
| Properties.ReadOnlyOnlyForTrue | mysql-mcp.js:134 | read-only mode is on for `"true"` and off when the variable is unset, `"TRUE"`, `"1"` or `" true"` |
| Properties.AcceptedQuery | mysql-mcp.js:126-138 | an accepted query sends its `sql` unchanged with its `params`, or with an empty array when `params` is falsy, and waits under the request's id |
| Properties.MixedCaseKeyword | mysql-mcp.js:134 | `"SeLeCt 1"` passes the gate |
| Properties.MixedCaseSelectPasses | mysql-mcp.js:134 | `"  SeLeCt 1"` passes the gate |
| Properties.UpdateIsRefused | mysql-mcp.js:134 | `"UPDATE t SET x=1"` fails the gate |
| Properties.TruncatedKeywordIsRefused | mysql-mcp.js:134 | `"  sel"` fails the gate |
| Properties.NonStringSql | mysql-mcp.js:134-138 | a truthy non-string `sql` gets no response in read-only mode and goes to the driver otherwise |
| Properties.DescribeTableCall | mysql-mcp.js:164-170 | `describe_table` without a truthy `table` is refused with `Table name is required`; otherwise it sends `DESCRIBE ??` with the name as the only value |
| Properties.UseDatabaseCall | mysql-mcp.js:196-202 | `use_database` without a truthy `database` is refused with `Database name is required`; otherwise it sends `USE ??` with the name as the only value |
| Properties.ListingCalls | mysql-mcp.js:151-183 | `list_tables` and `list_databases` send `SHOW TABLES` and `SHOW DATABASES` with no values, whatever the parameters |
| Properties.IdentifierNeverInStatement | mysql-mcp.js:170-202 | two `describe_table` or two `use_database` requests send the same statement text whatever names they carry |
| Properties.StatusNeverFails | mysql-mcp.js:212-228 | `status` is answered at once, always with a result, never with an error |
| Properties.StatusDisconnected | mysql-mcp.js:215-217 | without a live connection the report is exactly `{connected:false, message:"Not connected to database"}` |
| Properties.StatusConnected | mysql-mcp.js:219-226 | with a live connection the report says `connected:true`, gives the configured host, port, user and database, has `readonly` true exactly for `"true"`, and has no password member |
| Properties.StatusIgnoresPassword | mysql-mcp.js:219-226 | the configured password does not affect the report |
| Properties.UseDatabaseMessage | mysql-mcp.js:202-207 | a successful switch answers `{message: "Successfully switched to database '<name>'"}` |
| Properties.ResultsPassThrough | mysql-mcp.js:138-176 | `query` and `describe_table` pass the driver's result through; a row set becomes one object per row, in order |
| Properties.ListingProjectsFirstColumn | mysql-mcp.js:151-157 | a listing answers one element per row, in row order, each the row's first column value |
| Properties.ListingOfArray | mysql-mcp.js:151-190 | a listing given any array answers nothing exactly when an element is null, and otherwise one element per array element, in order, an object element giving its first column |
| Properties.ListingIgnoresEncoding | mysql-mcp.js:156 | rows handed over as a row set or as the plain array of row objects give the same listing |
| Properties.TablesFromPlainArray | mysql-mcp.js:156 | the plain array `[{"Tables_in_db":"t"}]` lists `["t"]` |
| Properties.ListingOfNames | mysql-mcp.js:183-190 | single-column rows list exactly their names, in order |
| Properties.ResponseShape | mysql-mcp.js:232-247 | every written response carries the line's id unchanged and exactly one of `result` or `error` |
| Properties.DriverFailureAnswered | mysql-mcp.js:138-141 | a line that reaches the driver is answered with the driver's error message under its own id when the driver fails |
| Properties.UseShopScenario | mysql-mcp.js:194-208 | request 1 switching to `shop` is answered `{id:1, result:{message:"Successfully switched to database 'shop'"}}` |
| Properties.DescribeWithoutTableScenario | mysql-mcp.js:162-168 | request 2 describing with empty params is answered `{id:2, error:{message:"Table name is required"}}` |
| JsValue.Keys | mysql-mcp.js:24-92 | the member names of an object, one per member, in order |
| Properties.ManifestMatchesDispatch | mysql-mcp.js:24-92 | the manifest names exactly the six operations after `get_tools` in the dispatch chain, in the same order |
| Properties.CalledWithoutParams | mysql-mcp.js:122-202 | with no parameters, exactly `query`, `describe_table` and `use_database` are refused |
| Properties.QueryToolRequires | mysql-mcp.js:25-44 | the `query` entry requires `sql` |
| Properties.DescribeTableToolRequires | mysql-mcp.js:52-64 | the `describe_table` entry requires `table` |
| Properties.UseDatabaseToolRequires | mysql-mcp.js:72-84 | the `use_database` entry requires `database` |
| Properties.ListingToolsRequireNothing | mysql-mcp.js:45-92 | the `list_tables`, `list_databases` and `status` entries require nothing |
| Properties.RequiredParamsEnforced | mysql-mcp.js:24-92 | a manifest entry has a `required` list exactly when the dispatcher refuses that operation called with no parameters |

## Left out

- Reading standard input (`readline`), writing with `console.log`, and the start and stop banners (mysql-mcp.js:6-9, 21, 251). These are I/O. The model starts from a parsed JSON value, with `None` for a line `JSON.parse` rejects.
- JSON text itself. Parsing text into values and `JSON.stringify` of the envelope are not modelled; the model ends at the object handed to `JSON.stringify`. One exception: a listing's entry for a row without columns is `undefined` in the source, and the model writes the `null` that `JSON.stringify` puts in its place inside an array.
- Creating the connection, reading the environment variables and their defaults (mysql-mcp.js:12-18), and `SIGINT` handling (mysql-mcp.js:250-254). These are process setup. The connection state, its configuration and the `MYSQL_READONLY` value are parameters.
- The driver. How it runs a statement, how it escapes `??` identifiers, and what it does with a statement that is not a string are not part of this model. `DbCall` records only the arguments `connection.query` receives; a function parameter of `Serve` supplies the outcome.
- Callback timing and the shared connection. Responses can complete out of order, and `USE` changes the session for requests still in flight. Each request is treated on its own here.
- Numbers are integers. `String(n)` is modelled for integers only; fractions, exponent notation at 1e21 and beyond, and loss of precision past 2^53 are not.
- `toLowerCase` is modelled for ASCII letters only. This does not change the gate's decision; the reason is given above.
- JavaScript strings are UTF-16 code units. Here a string is a sequence of Unicode characters, so unpaired surrogates are not modelled.
- Handlers.Complete: when a callback throws, Node ends the process, so later lines and requests still waiting on the driver go unanswered. This happens for a listing given a value that is not an array (it has no `map`) or an array with a null element (`Object.values(null)` throws). The model returns `None` for that one request only and does not model the process exit. The callback's `None` for a `use_database` name whose conversion to a string throws is reached only with a driver that accepts that name; the `mysql` driver converts the name for `USE ??` first and throws inside `connection.query` (next line).
- Properties.SilentExactly: throws raised inside `connection.query` itself are not modelled, because the driver parameter of `Serve` always returns an outcome. The `mysql` driver throws there when it cannot convert a `describe_table` or `use_database` name to text for `??`; the `catch` of the line handler then swallows the error and the line gets no response, which the lemma's condition does not list.
- JsValue.ToJsString: the text of an array that does not throw is given by its definition only, as the comma join of its converted elements with null elements empty; no separate contract states it.
- Property order in a row. The model takes a row's columns in the order `Object.values` lists them. JavaScript moves integer-like keys to the front; that reordering is not modelled.
