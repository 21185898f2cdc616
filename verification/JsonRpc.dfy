/** JSON-RPC 2.0 messages (src/jsonrpc.cpp, include/cppmcp/common.hpp). */
module JsonRpc {
  import opened Wrappers
  import opened RequestIds
  import opened Json

  datatype Message =
    | Request(id: RequestId, verb: string, params: Option<Json>)
    | Notification(verb: string, params: Option<Json>)
    | Success(id: RequestId, result: Json)
    | Failure(id: RequestId, code: int, message: string)

  // --------------------------------------------------------------------- ids

  const TWO63 := 0x8000_0000_0000_0000
  const TWO64 := 0x1_0000_0000_0000_0000

  /** The conversion to int64_t, which wraps for parsed integers from 2^63 on. */
  function Wrap64(n: int): (w: int)
    ensures -TWO63 <= w < TWO63
    ensures -TWO63 <= n < TWO63 ==> w == n
  {
    var m := n % TWO64;
    if m < TWO63 then m else m - TWO64
  }

  function IdFromJson(j: Json): Option<RequestId> {
    match j
    case JNull => Some(NullId)
    case JInt(n) => Some(IntId(Wrap64(n)))
    case JStr(s) => Some(StrId(s))
    case _ => None
  }

  function IdToJson(id: RequestId): Json {
    match id
    case NullId => JNull
    case IntId(n) => JInt(n)
    case StrId(s) => JStr(s)
  }

  // ---------------------------------------------------------- classification

  predicate Envelope(raw: Json) {
    Has(raw, "jsonrpc") && raw.fields["jsonrpc"] == JStr("2.0")
  }

  predicate ParamsOk(raw: Json)
    requires raw.JObj?
  {
    "params" in raw.fields ==>
      var p := raw.fields["params"]; p.JNull? || p.JObj? || p.JArr?
  }

  function ParamsOf(raw: Json): Option<Json>
    requires raw.JObj?
  {
    if "params" in raw.fields && !raw.fields["params"].JNull? then Some(raw.fields["params"]) else None
  }

  const BAD_VERSION := "Invalid or missing jsonrpc version"
  const BAD_ID := "Request id must be a string or number (null is not allowed)"
  const BAD_METHOD := "Method must be a string"
  const BAD_PARAMS := "Params must be a structured value (object or array)"
  const BAD_RESPONSE := "Server received a response message (unexpected)"
  const NOT_A_MESSAGE := "Message must have method or be a valid request"
  const BAD_RESPONSE_ID := "Failed to parse message: RequestId must be null, integer, or string"

  function ParseMessage(raw: Json): Message {
    if !Envelope(raw) then Failure(NullId, INVALID_REQUEST, BAD_VERSION)
    else if "id" in raw.fields then
      var id := IdFromJson(raw.fields["id"]);
      if "method" in raw.fields then
        if id.None? || id.value.NullId? then Failure(NullId, INVALID_REQUEST, BAD_ID)
        else if !raw.fields["method"].JStr? then Failure(id.value, INVALID_REQUEST, BAD_METHOD)
        else if !ParamsOk(raw) then Failure(id.value, INVALID_REQUEST, BAD_PARAMS)
        else Request(id.value, raw.fields["method"].s, ParamsOf(raw))
      else if id.None? then Failure(NullId, PARSE_ERROR, BAD_RESPONSE_ID)
      else if "result" in raw.fields then Success(id.value, raw.fields["result"])
      else Failure(id.value, INVALID_REQUEST, BAD_RESPONSE)
    else if "method" in raw.fields then
      if !raw.fields["method"].JStr? then Failure(NullId, INVALID_REQUEST, BAD_METHOD)
      else if !ParamsOk(raw) then Failure(NullId, INVALID_REQUEST, BAD_PARAMS)
      else Notification(raw.fields["method"].s, ParamsOf(raw))
    else Failure(NullId, INVALID_REQUEST, NOT_A_MESSAGE)
  }

  // ------------------------------------------------------------- constructors

  function MakeSuccess(id: RequestId, result: Json): Json {
    JObj(map["jsonrpc" := JStr("2.0"), "id" := IdToJson(id), "result" := result])
  }

  function MakeError(id: RequestId, code: int, message: string, data: Option<Json>): Json {
    var detail := map["code" := JInt(code), "message" := JStr(message)];
    JObj(map["jsonrpc" := JStr("2.0"), "id" := IdToJson(id),
             "error" := JObj(if data.Some? then detail["data" := data.value] else detail)])
  }

  function WithParams(fields: map<string, Json>, params: Option<Json>): Json {
    JObj(if params.Some? then fields["params" := params.value] else fields)
  }

  function Serialize(m: Message): Json
    requires m.Request? || m.Notification?
  {
    match m
    case Request(id, verb, params) =>
      WithParams(map["jsonrpc" := JStr("2.0"), "id" := IdToJson(id), "method" := JStr(verb)], params)
    case Notification(verb, params) =>
      WithParams(map["jsonrpc" := JStr("2.0"), "method" := JStr(verb)], params)
  }

  // --------------------------------------------------------------- properties

  /** JSON-RPC 2.0 section 4, as narrowed by the code: ids are integers or strings. */
  predicate WellFormedRequest(raw: Json) {
    Envelope(raw) && Has(raw, "id") && Has(raw, "method") && ParamsOk(raw)
    && (raw.fields["id"].JInt? || raw.fields["id"].JStr?)
    && raw.fields["method"].JStr?
  }

  predicate WellFormedNotification(raw: Json) {
    Envelope(raw) && !Has(raw, "id") && Has(raw, "method") && ParamsOk(raw) && raw.fields["method"].JStr?
  }

  predicate SuccessResponse(raw: Json) {
    Envelope(raw) && Has(raw, "id") && !Has(raw, "method") && Has(raw, "result")
    && IdFromJson(raw.fields["id"]).Some?
  }

  /** The parser's classes are exactly the declared message shapes. */
  lemma ParseExact(raw: Json)
    ensures ParseMessage(raw).Request? <==> WellFormedRequest(raw)
    ensures ParseMessage(raw).Notification? <==> WellFormedNotification(raw)
    ensures ParseMessage(raw).Success? <==> SuccessResponse(raw)
    ensures WellFormedRequest(raw) ==> ParseMessage(raw).id == IdFromJson(raw.fields["id"]).value
    ensures WellFormedRequest(raw) || WellFormedNotification(raw) ==>
              && JStr(ParseMessage(raw).verb) == raw.fields["method"]
              && ParseMessage(raw).params == if "params" in raw.fields && raw.fields["params"] != JNull
                                             then Some(raw.fields["params"]) else None
    ensures SuccessResponse(raw) ==>
              ParseMessage(raw) == Success(IdFromJson(raw.fields["id"]).value, raw.fields["result"])
  {
  }

  /** The conversion to int64_t keeps the integer modulo 2^64. */
  lemma WrapExact(n: int)
    ensures -TWO63 <= Wrap64(n) < TWO63 && (Wrap64(n) - n) % TWO64 == 0
    ensures IdFromJson(JInt(n)) == Some(IntId(Wrap64(n)))
  {
    assert n == n / TWO64 * TWO64 + n % TWO64;
    var k := if n % TWO64 < TWO63 then -(n / TWO64) else -(n / TWO64) - 1;
    assert Wrap64(n) - n == k * TWO64;
  }

  /** A request's id survives parsing and echoing exactly when it fits int64_t. */
  lemma EchoExact(j: Json)
    ensures (IdFromJson(j).Some? && IdToJson(IdFromJson(j).value) == j)
            <==> (j.JNull? || j.JStr? || (j.JInt? && -TWO63 <= j.n < TWO63))
  {
  }

  predicate IdFits(id: RequestId) {
    id.IntId? ==> -TWO63 <= id.num < TWO63
  }

  predicate Structured(params: Option<Json>) {
    params.Some? ==> params.value.JObj? || params.value.JArr?
  }

  /** Parsing undoes serializing exactly on the messages the protocol allows. */
  lemma SerializeRoundTripExact(m: Message)
    requires m.Request? || m.Notification?
    ensures ParseMessage(Serialize(m)) == m
            <==> Structured(m.params) && (m.Request? ==> !m.id.NullId? && IdFits(m.id))
  {
    var f := Serialize(m).fields;
    assert m.Request? ==> "id" in f && "method" in f && f["id"] == IdToJson(m.id);
    assert m.Notification? ==> "id" !in f && "method" in f;
    assert m.params.Some? ==> "params" in f && f["params"] == m.params.value;
    assert m.params.None? ==> "params" !in f;
  }

  /** A peer reads back a success response with the id and result it was built from. */
  lemma SuccessRoundTripExact(id: RequestId, result: Json)
    ensures ParseMessage(MakeSuccess(id, result)) == Success(id, result) <==> IdFits(id)
  {
  }

  /** The error a peer reads off a response: code, message and data. */
  function ErrorOf(response: Json): Option<(Json, Json, Option<Json>)> {
    if Has(response, "error") && Has(response.fields["error"], "code") && Has(response.fields["error"], "message") then
      var e := response.fields["error"].fields;
      Some((e["code"], e["message"], if "data" in e then Some(e["data"]) else None))
    else None
  }

  /** An error response carries its id, code, message and data, and no result. */
  lemma ErrorReads(id: RequestId, code: int, message: string, data: Option<Json>)
    ensures var r := MakeError(id, code, message, data);
            && ErrorOf(r) == Some((JInt(code), JStr(message), data))
            && r.fields.Keys == {"jsonrpc", "id", "error"} && r.fields["jsonrpc"] == JStr("2.0")
            && r.fields["id"] == IdToJson(id)
  {
  }

  /** An id that a malformed message can be answered under. */
  predicate UsableId(raw: Json) {
    Envelope(raw) && Has(raw, "id")
    && (raw.fields["id"].JInt? || raw.fields["id"].JStr? || (raw.fields["id"].JNull? && !Has(raw, "method")))
  }

  /** What is wrong with a malformed message: the version, then the id, then the
      method, then the params; without a method it is no message, or a response. */
  function Complaint(raw: Json): string {
    if !Envelope(raw) then "Invalid or missing jsonrpc version"
    else if Has(raw, "method") then
      if Has(raw, "id") && !UsableId(raw) then "Request id must be a string or number (null is not allowed)"
      else if !raw.fields["method"].JStr? then "Method must be a string"
      else "Params must be a structured value (object or array)"
    else if !Has(raw, "id") then "Message must have method or be a valid request"
    else if UsableId(raw) then "Server received a response message (unexpected)"
    else "Failed to parse message: RequestId must be null, integer, or string"
  }

  /** A message that is none of the three shapes: its error is an invalid request,
      or a parse error where a response has an unusable id; its id is kept where it
      is usable, which for a request excludes null. */
  lemma MalformedExact(raw: Json)
    requires !WellFormedRequest(raw) && !WellFormedNotification(raw) && !SuccessResponse(raw)
    ensures var m := ParseMessage(raw);
            && m.Failure?
            && m.id == (if UsableId(raw) then IdFromJson(raw.fields["id"]).value else NullId)
            && m.code
               == (if Envelope(raw) && Has(raw, "id") && !Has(raw, "method") && !UsableId(raw) then -32700 else -32600)
            && m.message == Complaint(raw)
  {
  }
}
