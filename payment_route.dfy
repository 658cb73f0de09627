/**
 * The payment proxy route: a ladder of checks from the session cookie,
 * the request body and the payment backend's reply to one HTTP response.
 */
module PaymentRoute {
  import opened Wrappers
  import opened Text

  /** The `id` property of the parsed request body, as `body?.id` reads it. */
  datatype IdField =
    | NoId                // the property is absent, or the body is `null` or not an object
    | TextId(id: string)  // a string
    | OtherId             // a number, boolean, object, ...

  /** The request body: the JSON parse error, or the parsed value with its `id`. */
  datatype RequestBody = Malformed(error: string) | Json(id: IdField, fields: seq<(string, string)>)

  /** The JSON the backend answered with, or the error its parse threw. */
  datatype BackendData =
    | Unparsable(error: string)
    | Data(success: bool, hasData: bool, message: Option<string>, fields: seq<(string, string)>)

  /** The backend call: the error `fetch` threw, or the reply with its status code. */
  datatype BackendReply = FetchThrew(error: string) | Reply(ok: bool, status: int, data: BackendData)

  /** What the route answers: `{success: false, message}` with a status, or the backend's JSON with 200. */
  datatype Response = Refused(status: int, message: string) | PassedOn(data: BackendData)

  /** The response, and the body sent to the backend when the ladder got that far. */
  datatype Outcome = Outcome(response: Response, forwarded: Option<RequestBody>)

  const SessionExpired := "Session expired. Please login again."
  const MissingOrderId := "Invalid payment request. Missing order ID."
  const GatewayError := "Payment gateway error"

  /** `!body?.id || typeof body.id !== "string"`: only a non-empty string id passes. */
  predicate ValidId(body: RequestBody)
  {
    body.Json? && body.id.TextId? && body.id.id != ""
  }

  /** What the route answers for an OK backend reply whose JSON was read. */
  function Answer(data: BackendData): (r: Response)
    requires data.Data?
    ensures r.PassedOn? <==> data.success && data.hasData
    ensures r.PassedOn? ==> r.data == data
    ensures r.Refused? ==> r.status == 502
    ensures r.Refused? ==>
              r.message == if data.message.Some? && data.message.value != "" then data.message.value else GatewayError
  {
    if !data.success || !data.hasData then
      Refused(502, if data.message.Some? && data.message.value != "" then data.message.value else GatewayError)
    else
      PassedOn(data)
  }

  /**
   * `POST`: the session token (`None` when the cookie is absent), the
   * request body, and the backend's reply, which is only consulted once
   * the body has been forwarded.
   */
  function Post(session: Option<string>, body: RequestBody, backend: BackendReply): (out: Outcome)
    // the session is checked first, and nothing is forwarded without one
    ensures (session.None? || session.value == "") ==> out == Outcome(Refused(401, SessionExpired), None)
    // a body that does not parse ends in the catch block
    ensures session.Some? && session.value != "" && body.Malformed? ==>
              out == Outcome(Refused(500, body.error), None)
    // a parsed body without a usable id is refused before anything is forwarded
    ensures session.Some? && session.value != "" && body.Json? && !ValidId(body) ==>
              out == Outcome(Refused(400, MissingOrderId), None)
    // the body is forwarded unchanged exactly when both checks pass
    ensures out.forwarded.Some? <==> session.Some? && session.value != "" && ValidId(body)
    ensures out.forwarded.Some? ==> out.forwarded.value == body
    // once forwarded, the response depends only on the backend
    ensures out.forwarded.Some? ==> out.response == BackendAnswer(backend)
  {
    if session.None? || session.value == "" then
      Outcome(Refused(401, SessionExpired), None)
    else if body.Malformed? then
      Outcome(Refused(500, body.error), None)
    else if !ValidId(body) then
      Outcome(Refused(400, MissingOrderId), None)
    else
      Outcome(BackendAnswer(backend), Some(body))
  }

  /** The part of the ladder after the body is forwarded. */
  function BackendAnswer(backend: BackendReply): (r: Response)
    // a thrown error, a non-OK status or an unreadable reply all end in the catch block with 500
    ensures backend.FetchThrew? ==> r == Refused(500, backend.error)
    ensures backend.Reply? && !backend.ok ==> r == Refused(500, "Backend responded with " + IntToString(backend.status))
    ensures backend.Reply? && backend.ok && backend.data.Unparsable? ==> r == Refused(500, backend.data.error)
    // an OK, readable reply is passed on exactly when it reports success with data
    ensures r.PassedOn? <==> backend.Reply? && backend.ok && backend.data.Data? && backend.data.success && backend.data.hasData
    ensures r.PassedOn? ==> r.data == backend.data
    ensures r.Refused? ==> r.status == 500 || r.status == 502
  {
    match backend
    case FetchThrew(error) => Refused(500, error)
    case Reply(ok, status, data) =>
      if !ok then Refused(500, "Backend responded with " + IntToString(status))
      else if data.Unparsable? then Refused(500, data.error)
      else Answer(data)
  }

  /** The status code the route answers with. */
  function StatusOf(r: Response): int
  {
    if r.Refused? then r.status else 200
  }

  /** Every path ends in one of the five statuses, and 200 only with the backend's data. */
  lemma PostStatuses(session: Option<string>, body: RequestBody, backend: BackendReply)
    ensures StatusOf(Post(session, body, backend).response) in {200, 400, 401, 500, 502}
    ensures StatusOf(Post(session, body, backend).response) == 200 <==>
              session.Some? && session.value != "" && ValidId(body)
              && backend.Reply? && backend.ok && backend.data.Data? && backend.data.success && backend.data.hasData
  {
  }

  /** The backend is never consulted before the session and the body pass. */
  lemma RefusalIgnoresBackend(session: Option<string>, body: RequestBody, b1: BackendReply, b2: BackendReply)
    requires session.None? || session.value == "" || !ValidId(body)
    ensures Post(session, body, b1) == Post(session, body, b2)
  {
  }
}
