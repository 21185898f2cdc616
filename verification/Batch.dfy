/**
 * Dispatch of messages by the server (src/server.cpp, on_message) and of
 * JSON-RPC batches by the HTTP transport (src/http_transport.cpp,
 * handle_post_batch). User handlers are arbitrary functions of the server state.
 */
module Batch {
  import opened Wrappers
  import opened RequestIds
  import opened Json
  import opened JsonRpc

  const SERVER_NOT_INITIALIZED := -32002
  const NOTIF_INITIALIZED := "notifications/initialized"

  /** What a handler does: return a result or an error body, or throw. */
  datatype Outcome =
    | Returned(result: Json)
    | Refused(code: int, why: string)
    | ThrewMcp(code: int, why: string, data: Option<Json>)
    | ThrewStd(what: string)
    | ThrewOther

  /** What the callbacks of a server-initiated request are told. */
  datatype ClientReply = Resulted(result: Json) | Failed(code: int, why: string)

  /** Server state: `outbound` holds the ids of unanswered server-initiated requests. */
  datatype Core<A> = Core(app: A, initialized: bool, outbound: set<int>)

  /** Registered handlers; either kind may start server-initiated requests. */
  datatype Handlers<!A> = Handlers(
    call: (Core<A>, Message, string) -> (Core<A>, Outcome),
    answered: (Core<A>, int, ClientReply) -> Core<A>)

  // ----------------------------------------------------------- one message

  predicate Deferrable(verb: string) {
    verb == "tools/call" || verb == "resources/read" || verb == "prompts/get"
  }

  predicate HandledMethod(verb: string) {
    Deferrable(verb) || verb == "tools/list" || verb == "resources/list" || verb == "resources/subscribe"
    || verb == "resources/unsubscribe" || verb == "resources/templates/list" || verb == "prompts/list"
    || verb == "completion/complete" || verb == "logging/setLevel"
  }

  function DispatchMethod<A>(h: Handlers<A>, c: Core<A>, req: Message, sid: string): (Core<A>, Outcome)
    requires req.Request?
  {
    if req.verb == METHOD_INITIALIZE then h.call(c, req, sid)
    else if req.verb == "ping" then (c, Returned(JObj(map[])))
    else if !c.initialized then
      (c, Refused(SERVER_NOT_INITIALIZED, "Server not initialized. Send initialize request first."))
    else if HandledMethod(req.verb) then h.call(c, req, sid)
    else (c, Refused(METHOD_NOT_FOUND, "Method not found: " + req.verb))
  }

  function ResponseOf(id: RequestId, o: Outcome): Json {
    match o
    case Returned(result) => MakeSuccess(id, result)
    case Refused(code, why) => MakeError(id, code, why, None)
    case ThrewMcp(code, why, data) => MakeError(id, code, why, data)
    case ThrewStd(what) => MakeError(id, INTERNAL_ERROR, what, None)
    case ThrewOther => MakeError(id, INTERNAL_ERROR, "Unknown error", None)
  }

  function ProcessRequest<A>(h: Handlers<A>, c: Core<A>, req: Message, sid: string): (Core<A>, Json)
    requires req.Request?
  {
    var (c', o) := DispatchMethod(h, c, req, sid);
    (c', ResponseOf(req.id, o))
  }

  function Complete<A>(h: Handlers<A>, c: Core<A>, id: RequestId, reply: ClientReply): Core<A> {
    if id.IntId? && id.num in c.outbound then h.answered(c.(outbound := c.outbound - {id.num}), id.num, reply) else c
  }

  /** The synchronous meaning of a message: the next state and the response, if any. */
  function Answer<A>(h: Handlers<A>, c: Core<A>, raw: Json, sid: string): (Core<A>, Option<Json>) {
    var m := ParseMessage(raw);
    match m
    case Request(_, _, _) => var (c', r) := ProcessRequest(h, c, m, sid); (c', Some(r))
    case Notification(verb, _) => (if verb == NOTIF_INITIALIZED then c.(initialized := true) else c, None)
    case Success(id, result) => (Complete(h, c, id, Resulted(result)), None)
    case Failure(id, code, why) =>
      if id.IntId? && id.num in c.outbound
      then (Complete(h, c, id, Failed(code, why)), None)
      else (c, Some(MakeError(id, code, why, None)))
  }

  /** on_message as coded: a deferrable request may go to the worker pool instead. */
  datatype Reaction<A> = Reaction(core: Core<A>, answer: Option<Json>, posted: seq<Message>)

  predicate Defers(pool: bool, guarded: bool, raw: Json) {
    var m := ParseMessage(raw);
    m.Request? && pool && !guarded && Deferrable(m.verb)
  }

  function React<A>(h: Handlers<A>, c: Core<A>, pool: bool, guarded: bool, raw: Json, sid: string): Reaction<A> {
    if Defers(pool, guarded, raw) then Reaction(c, None, [ParseMessage(raw)])
    else var (c', a) := Answer(h, c, raw, sid); Reaction(c', a, [])
  }

  /** A message is answered as without a pool exactly when it is not deferred. */
  lemma DeferralExact<A>(h: Handlers<A>, c: Core<A>, pool: bool, guarded: bool, raw: Json, sid: string)
    ensures React(h, c, pool, guarded, raw, sid).answer == Answer(h, c, raw, sid).1
            <==> !(pool && !guarded && WellFormedRequest(raw)
                   && raw.fields["method"].s in {"tools/call", "resources/read", "prompts/get"})
  {
    ParseExact(raw);
  }

  /** A deferred request answers, when its turn comes, as it would then have
      answered synchronously: the pool delays and does nothing else. */
  lemma DeferredSame<A>(h: Handlers<A>, c: Core<A>, later: Core<A>, raw: Json, sid: string)
    requires Defers(true, false, raw)
    ensures var r := React(h, c, true, false, raw, sid);
            && r.core == c && r.answer.None? && |r.posted| == 1
            && r.posted[0].Request? && Deferrable(r.posted[0].verb)
            && var (after, response) := ProcessRequest(h, later, r.posted[0], sid);
               Answer(h, later, raw, sid) == (after, Some(response))
  {
  }

  // ---------------------------------------------------------- a whole batch

  /** Element by element, in order, each from the state its predecessors left. */
  function AnswerAll<A>(h: Handlers<A>, c: Core<A>, batch: seq<Json>, sid: string): (Core<A>, seq<Json>)
    decreases |batch|
  {
    if batch == [] then (c, [])
    else
      var (c1, a) := Answer(h, c, batch[0], sid);
      var (c2, rest) := AnswerAll(h, c1, batch[1..], sid);
      (c2, ToSeq(a) + rest)
  }

  function ToSeq<T>(o: Option<T>): seq<T> {
    if o.Some? then [o.value] else []
  }

  datatype Session = NoHeader | Unknown | Uninitialized | Ready

  datatype Body = Text(text: string) | One(value: Json) | Many(values: seq<Json>)
  datatype HttpReply = HttpReply(status: int, body: Body)

  function BatchReply(responses: seq<Json>): HttpReply {
    if responses == [] then HttpReply(202, Text("")) else HttpReply(200, Many(responses))
  }

  function RefuseBatch(batch: seq<Json>, session: Session): Option<HttpReply> {
    if batch == [] then Some(HttpReply(200, One(MakeError(NullId, INVALID_REQUEST, "Invalid Request", None))))
    else
      match session
      case NoHeader =>
        Some(HttpReply(400, One(MakeError(NullId, INVALID_PARAMS, "Missing Mcp-Session-Id header", None))))
      case Unknown => Some(HttpReply(404, Text("Session not found")))
      case Uninitialized =>
        Some(HttpReply(400, One(MakeError(NullId, SERVER_NOT_INITIALIZED, "Session not initialized", None))))
      case Ready => None
  }

  lemma AnswerNext<A>(h: Handlers<A>, c: Core<A>, batch: seq<Json>, sid: string, i: nat, done: seq<Json>)
    requires i < |batch|
    ensures var now, next := AnswerAll(h, c, batch[i..], sid), Answer(h, c, batch[i], sid);
            var rest := AnswerAll(h, next.0, batch[i + 1..], sid);
            now.0 == rest.0 && done + now.1 == (if next.1.Some? then done + [next.1.value] else done) + rest.1
  {
    assert batch[i..][0] == batch[i] && batch[i..][1..] == batch[i + 1..];
  }

  class McpServer<!A> {
    const handlers: Handlers<A>
    var core: Core<A>
    var pool: bool              // whether an executor is configured
    var posted: seq<Message>    // requests handed to the executor
    var batchDispatch: bool     // the dispatching thread's g_batch_dispatch

    constructor (handlers: Handlers<A>, app: A, pool: bool)
      ensures this.handlers == handlers && core == Core(app, false, {})
      ensures this.pool == pool && posted == [] && !batchDispatch
    {
      this.handlers := handlers;
      core := Core(app, false, {});
      this.pool, posted, batchDispatch := pool, [], false;
    }

    method OnMessage(raw: Json, sid: string) returns (answer: Option<Json>)
      modifies this`core, this`posted
      ensures var r := React(handlers, old(core), pool, batchDispatch, raw, sid);
              core == r.core && answer == r.answer && posted == old(posted) + r.posted
    {
      var m := ParseMessage(raw);
      answer := None;
      match m
      case Request(_, verb, _) =>
        if pool && !batchDispatch && Deferrable(verb) {
          posted := posted + [m];
        } else {
          var (c, r) := ProcessRequest(handlers, core, m, sid);
          core := c;
          answer := Some(r);
        }
      case Notification(verb, _) =>
        if verb == NOTIF_INITIALIZED {
          core := core.(initialized := true);
        }
      case Success(id, result) =>
        core := Complete(handlers, core, id, Resulted(result));
      case Failure(id, code, why) =>
        if id.IntId? && id.num in core.outbound {
          core := Complete(handlers, core, id, Failed(code, why));
        } else {
          answer := Some(MakeError(id, code, why, None));
        }
    }

    /** A worker takes the oldest posted request; its response goes to the io thread. */
    method RunPosted(sid: string) returns (answer: Option<Json>)
      modifies this`core, this`posted
      ensures old(posted) == [] ==> answer.None? && posted == [] && core == old(core)
      ensures old(posted) != [] && old(posted)[0].Request? ==>
                var (c, r) := ProcessRequest(handlers, old(core), old(posted)[0], sid);
                core == c && answer == Some(r) && posted == old(posted)[1..]
    {
      answer := None;
      if posted != [] && posted[0].Request? {
        var (c, r) := ProcessRequest(handlers, core, posted[0], sid);
        core, answer, posted := c, Some(r), posted[1..];
      }
    }

    /** The element loop, run while the guard holds. */
    method CollectResponses(batch: seq<Json>, sid: string) returns (responses: seq<Json>)
      requires batchDispatch
      modifies this`core, this`posted
      ensures posted == old(posted)
      ensures (core, responses) == AnswerAll(handlers, old(core), batch, sid)
    {
      ghost var all := AnswerAll(handlers, core, batch, sid);
      responses := [];
      assert batch[0..] == batch;
      for i := 0 to |batch|
        invariant posted == old(posted)
        invariant AnswerAll(handlers, core, batch[i..], sid).0 == all.0
        invariant responses + AnswerAll(handlers, core, batch[i..], sid).1 == all.1
      {
        AnswerNext(handlers, core, batch, sid, i, responses);
        var answer := OnMessage(batch[i], sid);
        if answer.Some? {
          responses := responses + [answer.value];
        }
      }
      assert responses + [] == responses;
    }

    /** With or without a pool: the in-order synchronous answers, nothing posted. */
    method HandlePostBatch(batch: seq<Json>, session: Session, sid: string) returns (reply: HttpReply)
      modifies this
      ensures pool == old(pool) && posted == old(posted)
      ensures batch == [] || session != Ready ==> core == old(core) && batchDispatch == old(batchDispatch)
      ensures batch == [] ==> reply == HttpReply(200, One(MakeError(NullId, -32600, "Invalid Request", None)))
      ensures batch != [] && session == NoHeader ==>
                reply == HttpReply(400, One(MakeError(NullId, -32602, "Missing Mcp-Session-Id header", None)))
      ensures batch != [] && session == Unknown ==> reply == HttpReply(404, Text("Session not found"))
      ensures batch != [] && session == Uninitialized ==>
                reply == HttpReply(400, One(MakeError(NullId, -32002, "Session not initialized", None)))
      ensures batch != [] && session == Ready ==>
                var (c, responses) := AnswerAll(handlers, old(core), batch, sid);
                && core == c && !batchDispatch
                && reply == if responses == [] then HttpReply(202, Text("")) else HttpReply(200, Many(responses))
    {
      var refusal := RefuseBatch(batch, session);
      if refusal.Some? {
        return refusal.value;
      }
      batchDispatch := true;
      var responses := CollectResponses(batch, sid);
      batchDispatch := false;
      return BatchReply(responses);
    }
  }

  // -------------------------------------------------- what a batch is answered

  /** The id owed to an element, given the server-initiated requests then open. */
  function Owed(raw: Json, open: set<int>): Option<Json> {
    if WellFormedRequest(raw) then Some(IdToJson(IdFromJson(raw.fields["id"]).value))
    else if WellFormedNotification(raw) || SuccessResponse(raw) then None
    else
      var id := ParseMessage(raw).id;
      if id.IntId? && id.num in open then None else Some(IdToJson(id))
  }

  /** Malformed elements that carry an integer id, which may name an open request. */
  predicate Contested(raw: Json) {
    ParseMessage(raw).Failure? && ParseMessage(raw).id.IntId?
  }

  function OwedAll(batch: seq<Json>, opens: seq<set<int>>): seq<Json>
    requires |opens| == |batch|
  {
    if batch == [] then [] else ToSeq(Owed(batch[0], opens[0])) + OwedAll(batch[1..], opens[1..])
  }

  /** The open server-initiated requests seen by each element in turn. */
  function OpenTrace<A>(h: Handlers<A>, c: Core<A>, batch: seq<Json>, sid: string): (opens: seq<set<int>>)
    ensures |opens| == |batch|
    decreases |batch|
  {
    if batch == [] then [] else [c.outbound] + OpenTrace(h, Answer(h, c, batch[0], sid).0, batch[1..], sid)
  }

  /** A response: version 2.0, an id, and exactly one of result and error. */
  predicate ResponseShape(r: Json) {
    Envelope(r) && "id" in r.fields && "method" !in r.fields && ("result" in r.fields <==> "error" !in r.fields)
  }

  function Ids(rs: seq<Json>): seq<Json>
    requires forall r :: r in rs ==> ResponseShape(r)
  {
    if rs == [] then [] else assert rs[0] in rs && ResponseShape(rs[0]); [rs[0].fields["id"]] + Ids(rs[1..])
  }

  lemma ResponseOfShape(id: RequestId, o: Outcome)
    ensures ResponseShape(ResponseOf(id, o)) && ResponseOf(id, o).fields["id"] == IdToJson(id)
  {
  }

  /** A peer reads a response as a result exactly when the handler returned one. */
  lemma ResultExact(id: RequestId, o: Outcome, result: Json)
    requires IdFits(id)
    ensures ParseMessage(ResponseOf(id, o)) == Success(id, result) <==> o == Returned(result)
  {
    ResponseOfShape(id, o);
    assert o.Returned? <==> "result" in ResponseOf(id, o).fields;
  }

  lemma AnswerIsOwed<A>(h: Handlers<A>, c: Core<A>, raw: Json, sid: string)
    ensures var a := Answer(h, c, raw, sid).1;
            (a.Some? ==> ResponseShape(a.value))
            && (if a.Some? then Some(a.value.fields["id"]) else None) == Owed(raw, c.outbound)
  {
    ParseExact(raw);
    var m := ParseMessage(raw);
    match m
    case Request(id, _, _) => ResponseOfShape(id, DispatchMethod(h, c, m, sid).1);
    case Failure(id, code, why) => ResponseOfShape(id, Refused(code, why));
    case _ =>
  }

  /** The body answers exactly the owed ids, in the order of the batch. */
  lemma {:induction false} BatchIds<A>(h: Handlers<A>, c: Core<A>, batch: seq<Json>, sid: string)
    ensures forall r :: r in AnswerAll(h, c, batch, sid).1 ==> ResponseShape(r)
    ensures Ids(AnswerAll(h, c, batch, sid).1) == OwedAll(batch, OpenTrace(h, c, batch, sid))
    decreases |batch|
  {
    if batch != [] {
      var (c1, a) := Answer(h, c, batch[0], sid);
      AnswerIsOwed(h, c, batch[0], sid);
      BatchIds(h, c1, batch[1..], sid);
      var rest := AnswerAll(h, c1, batch[1..], sid).1;
      assert a.Some? ==> ([a.value] + rest)[1..] == rest;
      assert OpenTrace(h, c, batch, sid)[1..] == OpenTrace(h, c1, batch[1..], sid);
      assert a.None? ==> ToSeq(a) + rest == rest;
    }
  }

  /** What is owed when no malformed element carries an integer id. */
  function Expected(batch: seq<Json>): seq<Json> {
    if batch == [] then [] else ToSeq(Owed(batch[0], {})) + Expected(batch[1..])
  }

  lemma {:induction false} OwedIgnoresOpen(batch: seq<Json>, opens: seq<set<int>>)
    requires |opens| == |batch|
    requires forall raw :: raw in batch ==> !Contested(raw)
    ensures OwedAll(batch, opens) == Expected(batch)
  {
    if batch != [] {
      ParseExact(batch[0]);
      assert batch[0] in batch;
      OwedIgnoresOpen(batch[1..], opens[1..]);
    }
  }

  /** Then the ids answered depend on the batch alone: not on state or handlers. */
  lemma {:induction false} BatchAnswersTheBatch<A>(h: Handlers<A>, c: Core<A>, batch: seq<Json>, sid: string)
    requires forall raw :: raw in batch ==> !Contested(raw)
    ensures forall r :: r in AnswerAll(h, c, batch, sid).1 ==> ResponseShape(r)
    ensures Ids(AnswerAll(h, c, batch, sid).1) == Expected(batch)
    ensures BatchReply(AnswerAll(h, c, batch, sid).1).status == 202
            <==> forall raw :: raw in batch ==> WellFormedNotification(raw) || SuccessResponse(raw)
  {
    BatchIds(h, c, batch, sid);
    OwedIgnoresOpen(batch, OpenTrace(h, c, batch, sid));
    ExpectedEmptyExact(batch);
  }

  lemma {:induction false} ExpectedEmptyExact(batch: seq<Json>)
    ensures Expected(batch) == []
            <==> forall raw :: raw in batch ==> WellFormedNotification(raw) || SuccessResponse(raw)
  {
    if batch != [] {
      ParseExact(batch[0]);
      ExpectedEmptyExact(batch[1..]);
      assert batch == [batch[0]] + batch[1..];
    }
  }

  /** A malformed element with an integer id is taken for the reply to the open
      request of that number, which it completes, if there is one; otherwise it
      is answered and changes nothing. */
  lemma ContestedExact<A>(h: Handlers<A>, c: Core<A>, raw: Json, sid: string)
    requires Contested(raw)
    ensures var m := ParseMessage(raw);
            && (Answer(h, c, raw, sid).1.None? <==> m.id.num in c.outbound)
            && Answer(h, c, raw, sid).0
               == if m.id.num !in c.outbound then c
                  else h.answered(c.(outbound := c.outbound - {m.id.num}), m.id.num, Failed(m.code, m.message))
  {
  }

  // ------------------------------------------------------ which handler runs

  const HANDLED := {"tools/list", "tools/call", "resources/list", "resources/read", "resources/subscribe",
                    "resources/unsubscribe", "resources/templates/list", "prompts/list", "prompts/get",
                    "completion/complete", "logging/setLevel"}

  /** A request reaches its handler exactly when it is an initialize, or an
      initialized server knows its method; ping is answered with an empty result,
      and everything else is refused, naming the method that is unknown. */
  lemma DispatchExact<A>(h: Handlers<A>, c: Core<A>, id: RequestId, verb: string, params: Option<Json>, sid: string)
    ensures var req := Request(id, verb, params);
            DispatchMethod(h, c, req, sid) ==
            if verb == "initialize" || (c.initialized && verb in HANDLED) then h.call(c, req, sid)
            else if verb == "ping" then (c, Returned(JObj(map[])))
            else if !c.initialized then
              (c, Refused(-32002, "Server not initialized. Send initialize request first."))
            else (c, Refused(-32601, "Method not found: " + verb))
  {
  }

  /** What a peer reads when a handler refuses or throws. */
  lemma ErrorsExact(id: RequestId, o: Outcome)
    requires !o.Returned?
    ensures ErrorOf(ResponseOf(id, o)) ==
            match o
            case Refused(code, why) => Some((JInt(code), JStr(why), None))
            case ThrewMcp(code, why, data) => Some((JInt(code), JStr(why), data))
            case ThrewStd(what) => Some((JInt(-32603), JStr(what), None))
            case ThrewOther => Some((JInt(-32603), JStr("Unknown error"), None))
  {
    match o
    case Refused(code, why) => ErrorReads(id, code, why, None);
    case ThrewMcp(code, why, data) => ErrorReads(id, code, why, data);
    case ThrewStd(what) => ErrorReads(id, -32603, what, None);
    case ThrewOther => ErrorReads(id, -32603, "Unknown error", None);
  }

  /** Notifications change nothing but the initialized flag, and only the one that
      sets it; none is answered. */
  lemma NotificationExact<A>(h: Handlers<A>, c: Core<A>, raw: Json, sid: string)
    requires WellFormedNotification(raw)
    ensures Answer(h, c, raw, sid)
            == (c.(initialized := c.initialized || raw.fields["method"] == JStr("notifications/initialized")), None)
  {
    ParseExact(raw);
  }

  /** A result for an open server request closes it and goes to its callback; for
      any other id it is dropped. */
  lemma ReplyExact<A>(h: Handlers<A>, c: Core<A>, id: RequestId, result: Json, sid: string)
    requires IdFits(id)
    ensures Answer(h, c, MakeSuccess(id, result), sid) ==
            (if id.IntId? && id.num in c.outbound
             then h.answered(c.(outbound := c.outbound - {id.num}), id.num, Resulted(result)) else c, None)
  {
    SuccessRoundTripExact(id, result);
  }

  /** A malformed element that is answered is told the error found in it. */
  lemma MalformedAnswer<A>(h: Handlers<A>, c: Core<A>, raw: Json, sid: string)
    requires ParseMessage(raw).Failure? && Answer(h, c, raw, sid).1.Some?
    ensures var m, r := ParseMessage(raw), Answer(h, c, raw, sid).1.value;
            ErrorOf(r) == Some((JInt(m.code), JStr(m.message), None)) && r.fields["id"] == IdToJson(m.id)
  {
    var m := ParseMessage(raw);
    ErrorReads(m.id, m.code, m.message, None);
  }

  // ------------------------------------------------------ before initialization

  /** Two sets of handlers that agree on initialize and on replies, and leave the
      initialized flag alone. */
  ghost predicate AgreeOnInitialize<A(!new)>(h: Handlers<A>, g: Handlers<A>) {
    && h.answered == g.answered
    && (forall c, id, params, sid ::
          h.call(c, Request(id, METHOD_INITIALIZE, params), sid)
          == g.call(c, Request(id, METHOD_INITIALIZE, params), sid))
    && (forall c, m, sid {:trigger h.call(c, m, sid)} :: h.call(c, m, sid).0.initialized == c.initialized)
    && (forall c, n, j {:trigger h.answered(c, n, j)} :: h.answered(c, n, j).initialized == c.initialized)
  }

  predicate StartsUse(raw: Json) {
    ParseMessage(raw).Notification? && ParseMessage(raw).verb == NOTIF_INITIALIZED
  }

  lemma EarlyAnswer<A(!new)>(h: Handlers<A>, g: Handlers<A>, c: Core<A>, raw: Json, sid: string)
    requires AgreeOnInitialize(h, g) && !c.initialized && !StartsUse(raw)
    ensures Answer(h, c, raw, sid) == Answer(g, c, raw, sid) && !Answer(h, c, raw, sid).0.initialized
  {
    var m := ParseMessage(raw);
    if m.Request? && m.verb == METHOD_INITIALIZE {
      assert m == Request(m.id, METHOD_INITIALIZE, m.params);
    }
  }

  /** Until notifications/initialized arrives, no sequence of messages can make
      any handler but that of initialize matter. */
  lemma {:induction false} HandlersSilentBeforeInitialized<A(!new)>(
      h: Handlers<A>, g: Handlers<A>, c: Core<A>, batch: seq<Json>, sid: string)
    requires AgreeOnInitialize(h, g) && !c.initialized && forall raw :: raw in batch ==> !StartsUse(raw)
    ensures AnswerAll(h, c, batch, sid) == AnswerAll(g, c, batch, sid)
    ensures !AnswerAll(h, c, batch, sid).0.initialized
    decreases |batch|
  {
    if batch != [] {
      assert batch[0] in batch;
      EarlyAnswer(h, g, c, batch[0], sid);
      HandlersSilentBeforeInitialized(h, g, Answer(h, c, batch[0], sid).0, batch[1..], sid);
    }
  }

  // ------------------------------------------------------ without the guard

  function ReactAll<A>(h: Handlers<A>, c: Core<A>, batch: seq<Json>, sid: string): seq<Json>
    decreases |batch|
  {
    if batch == [] then []
    else
      var r := React(h, c, true, false, batch[0], sid);
      ToSeq(r.answer) + ReactAll(h, r.core, batch[1..], sid)
  }

  function Prompt(batch: seq<Json>): seq<Json> {
    if batch == [] then []
    else (if Defers(true, false, batch[0]) then [] else [batch[0]]) + Prompt(batch[1..])
  }

  /** A pool without the guard answers only the requests that are not deferrable. */
  lemma {:induction false} UnguardedIds<A>(h: Handlers<A>, c: Core<A>, batch: seq<Json>, sid: string)
    requires forall raw :: raw in batch ==> !Contested(raw)
    ensures forall r :: r in ReactAll(h, c, batch, sid) ==> ResponseShape(r)
    ensures Ids(ReactAll(h, c, batch, sid)) == Expected(Prompt(batch))
    decreases |batch|
  {
    if batch != [] {
      var raw := batch[0];
      assert raw in batch;
      var r := React(h, c, true, false, raw, sid);
      UnguardedIds(h, r.core, batch[1..], sid);
      var rest := ReactAll(h, r.core, batch[1..], sid);
      AnswerIsOwed(h, c, raw, sid);
      OwedIgnoresOpen([raw], [c.outbound]);
      assert Owed(raw, c.outbound) == Owed(raw, {}) by { ParseExact(raw); }
      var tail := Prompt(batch[1..]);
      assert ([raw] + tail)[1..] == tail && [] + tail == tail;
      assert r.answer.Some? ==> ([r.answer.value] + rest)[1..] == rest;
      assert r.answer.None? ==> ToSeq(r.answer) + rest == rest;
    }
  }

  lemma {:induction false} PromptShortens(batch: seq<Json>)
    ensures |Expected(Prompt(batch))| <= |Expected(batch)|
    ensures |Expected(Prompt(batch))| == |Expected(batch)| <==> forall raw :: raw in batch ==> !Defers(true, false, raw)
  {
    if batch != [] {
      var raw, tail := batch[0], Prompt(batch[1..]);
      PromptShortens(batch[1..]);
      ParseExact(raw);
      assert ([raw] + tail)[1..] == tail && [] + tail == tail;
      assert batch == [raw] + batch[1..];
    }
  }

  /** The guard is needed exactly for batches that hold a deferrable request. */
  lemma {:induction false} GuardNeededExact<A>(h: Handlers<A>, c: Core<A>, batch: seq<Json>, sid: string)
    requires forall raw :: raw in batch ==> !Contested(raw)
    ensures ReactAll(h, c, batch, sid) == AnswerAll(h, c, batch, sid).1
            <==> forall raw :: raw in batch ==> !Defers(true, false, raw)
  {
    if forall raw :: raw in batch ==> !Defers(true, false, raw) {
      UndeferredSame(h, c, batch, sid);
    } else {
      UnguardedIds(h, c, batch, sid);
      BatchAnswersTheBatch(h, c, batch, sid);
      PromptShortens(batch);
    }
  }

  lemma {:induction false} UndeferredSame<A>(h: Handlers<A>, c: Core<A>, batch: seq<Json>, sid: string)
    requires forall raw :: raw in batch ==> !Defers(true, false, raw)
    ensures ReactAll(h, c, batch, sid) == AnswerAll(h, c, batch, sid).1
    decreases |batch|
  {
    if batch != [] {
      assert batch[0] in batch;
      UndeferredSame(h, Answer(h, c, batch[0], sid).0, batch[1..], sid);
    }
  }
}
