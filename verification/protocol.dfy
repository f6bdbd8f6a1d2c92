/**
 The line protocol: a request is one JSON value read from a line, and a
 response is the object `sendSuccess` or `sendError` writes as one line.
 */
module Protocol {
  import opened JsValue

  /** What a response reports: a result value, or an error message. */
  datatype Body = Result(value: Json) | Error(message: string)

  /** A response correlated with its request by `id`; `None` is an id the
      request did not carry. */
  datatype Response = Response(id: Option<Json>, body: Body)

  /** The request fields the handler reads. `None` is a field the request
      object does not have. */
  datatype Request = Request(id: Option<Json>, methodName: Option<Json>, params: Option<Json>)

  /** Reading `input.id`, `input.method` and `input.params` from the parsed
      line. Property access on `null` throws, so a null line yields no
      request; any other value that is not an object has none of the three. */
  function ReadRequest(input: Json): (r: Option<Request>)
    ensures r.None? <==> input.JNull?
    ensures r.Some? && input.JObj? ==>
      && r.value.id == Lookup(input.members, "id")
      && r.value.methodName == Lookup(input.members, "method")
      && r.value.params == Lookup(input.members, "params")
    ensures r.Some? && !input.JObj? ==> r == Some(Request(None, None, None))
  {
    if input.JNull? then None
    else Some(Request(Prop(input, "id"), Prop(input, "method"), Prop(input, "params")))
  }

  /** The object handed to `JSON.stringify`: `{id, result}` or
      `{id, error: {message}}`. An undefined id is not written, since
      `JSON.stringify` leaves out members whose value is undefined. */
  function Envelope(r: Response): (j: Json)
    ensures j.JObj?
    ensures Lookup(j.members, "id") == r.id
    ensures Lookup(j.members, "result").Some? != Lookup(j.members, "error").Some?
    ensures r.body.Result? ==> Lookup(j.members, "result") == Some(r.body.value)
    ensures r.body.Error? ==>
      Lookup(j.members, "error") == Some(JObj([("message", JStr(r.body.message))]))
    ensures forall i :: 0 <= i < |j.members| ==> j.members[i].0 in {"id", "result", "error"}
  {
    var idMember := match r.id case None => [] case Some(v) => [("id", v)];
    var last := match r.body
      case Result(v) => ("result", v)
      case Error(m) => ("error", JObj([("message", JStr(m))]));
    var members := idMember + [last];
    if r.id.Some? then LookupSingle(members, "id", 0); JObj(members)
    else JObj(members)
  }

  /** How a client reads a response line back: its id, and exactly one of
      a result or an error carrying a string message. */
  function ReadEnvelope(j: Json): Option<Response> {
    if !j.JObj? then None
    else
      var id := Lookup(j.members, "id");
      match (Lookup(j.members, "result"), Lookup(j.members, "error"))
      case (Some(v), None) => Some(Response(id, Result(v)))
      case (None, Some(JObj(e))) =>
        (match Lookup(e, "message")
         case Some(JStr(m)) => Some(Response(id, Error(m)))
         case _ => None)
      case _ => None
  }

  /** A client reading a response line recovers the response exactly: the
      id unchanged, and the result or the error message. */
  lemma EnvelopeRoundTrip(r: Response)
    ensures ReadEnvelope(Envelope(r)) == Some(r)
  {
    if r.body.Error? {
      var e := [("message", JStr(r.body.message))];
      assert Lookup(e, "message") == Some(JStr(r.body.message));
    }
  }
}
