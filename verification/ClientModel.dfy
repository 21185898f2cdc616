/**
 * McpClient as a transition system (src/client.cpp). User threads append
 * tasks to a FIFO strand; the strand runs one task at a time. A successful
 * initialize is the one task a user thread can interleave with to visible
 * effect, so it runs in two steps, with `running` holding the second.
 */
module ClientModel {
  import opened Wrappers
  import opened RequestIds
  import opened PendingRequests

  /** The arguments of submit_request. */
  datatype Submission = Submission(
    verb: string, customToken: Option<RequestId>,
    hasComplete: bool, hasError: bool, hasProgress: bool, timed: bool)

  /** A message from the peer, as parse_message_client classifies it. */
  datatype Inbound =
    | SuccessReply(id: RequestId, result: Payload)
    | ErrorReply(id: RequestId, code: int, message: string)
    | Progress(token: RequestId, progress: real, total: Option<real>)
    | Other

  datatype Task =
    | RegisterTask(n: int)
    | InboundTask(message: Inbound)
    | TimerTask(n: int)
    | CancelTask(n: int, reason: string)
    | DrainTask(reason: string)

  /** The rest of complete_pending after the handshake flags are stored. */
  datatype Continuation = FinishInitialize(key: RequestId, n: int, outcome: Outcome)

  datatype Sent =
    | SentRequest(n: int, verb: string, token: Option<RequestId>)
    | SentInitialized
    | SentCancelled(n: int, reason: string)

  datatype Client = Client(
    nextId: int, stopping: bool, connected: bool, initialized: bool,
    serverResult: Option<Payload>,
    admitted: seq<Submission>,
    requests: map<int, Request>,
    pending: map<RequestId, int>,
    strand: seq<Task>,
    running: Option<Continuation>,
    wire: seq<Sent>)

  const START := Client(1, false, false, false, None, [], map[], map[], [], None, [])

  datatype Step =
    | Admit(submission: Submission)
    | Allocate(index: nat)
    | Post(n: int)
    | CancelCall(n: int, reason: string)
    | Deliver(message: Inbound)
    | TimerExpires(n: int)
    | TransportDrops
    | DisconnectCall
    | StopCall
    | ConnectRollback
    | StrandStep

  predicate Admissible(c: Client, s: Submission) {
    !c.stopping && (c.connected || s.verb == METHOD_INITIALIZE)
  }

  /** Lines 220-240: which progress token a request gets. */
  function ChooseToken(s: Submission, n: int): RequestId {
    if s.hasProgress then
      if s.customToken.Some? && !s.customToken.value.IntId? then s.customToken.value else IntId(n)
    else if s.customToken.Some? then s.customToken.value
    else NullId
  }

  function NewRequest(s: Submission, n: int): Request {
    Request(s.verb, ChooseToken(s, n), s.hasComplete, s.hasError, s.hasProgress, s.timed,
            Created, Waiting, None, None, [])
  }

  function WithTask(c: Client, t: Task): Client {
    c.(strand := c.strand + [t])
  }

  predicate HasOwnToken(r: Request, n: int) {
    r.token != NullId && r.token != IntId(n)
  }

  /** register_pending, then the send of the request. */
  function RegisterPending(c: Client, n: int): (c': Client)
    requires n in c.requests
    ensures Closed(c) ==> Closed(c')
    ensures SameFrame(c, c')
  {
    var r := c.requests[n];
    var byId := c.pending[IntId(n) := n];
    c.(pending := if HasOwnToken(r, n) then byId[r.token := n] else byId,
       requests := c.requests[n := r.(phase := Registered)],
       wire := c.wire + [SentRequest(n, r.verb, SentToken(r))])
  }

  /** The progressToken written into params._meta, lines 229-237. */
  function SentToken(r: Request): Option<RequestId> {
    if r.hasProgress then Some(r.token) else None
  }

  /** The erasures and the finish that end complete_pending. */
  function FinishKey(c: Client, key: RequestId, o: Outcome): (c': Client)
    requires key in c.pending && c.pending[key] in c.requests
    ensures Closed(c) ==> Closed(c')
    ensures SameFrame(c, c')
  {
    var n := c.pending[key];
    var r := c.requests[n];
    c.(pending := c.pending - {key} - (if HasOwnToken(r, n) then {r.token} else {}),
       requests := c.requests[n := Finish(r, o)])
  }

  predicate HandshakeOk(p: Payload) {
    p.decodes && p.version.Some? && IsSupportedVersion(p.version.value)
  }

  const UNSUPPORTED := RpcError(INVALID_REQUEST, "server negotiated an unsupported protocolVersion")

  /** The same requests, ids and queued tasks. */
  predicate SameFrame(c: Client, c': Client) {
    && c'.requests.Keys == c.requests.Keys && c'.nextId == c.nextId && c'.strand == c.strand
    && c'.stopping == c.stopping && c'.admitted == c.admitted
  }

  predicate Closed(c: Client) {
    forall k :: k in c.pending ==> c.pending[k] in c.requests
  }

  function CompletePending(c: Client, key: RequestId, o: Outcome): (c': Client)
    requires Closed(c)
    ensures Closed(c') && SameFrame(c, c')
  {
    if key !in c.pending then c
    else
      var n := c.pending[key];
      if o.Success? && c.requests[n].verb == METHOD_INITIALIZE then
        if HandshakeOk(o.result) then
          c.(serverResult := Some(o.result), connected := true, initialized := true,
             running := Some(FinishInitialize(key, n, o)))
        else FinishKey(c, key, UNSUPPORTED)
      else FinishKey(c, key, o)
  }

  function FailIf(r: Request, named: bool, reason: string): Request {
    if r.state == Waiting && named then Finish(r, Failure(reason)) else r
  }

  /** fail_all_pending: every request the table names, then an empty table. */
  function FailAll(c: Client, reason: string): (c': Client)
    requires Closed(c)
    ensures Closed(c') && SameFrame(c, c')
  {
    c.(requests := map n | n in c.requests :: FailIf(c.requests[n], n in c.pending.Values, reason),
       pending := map[])
  }

  function CancelPending(c: Client, n: int, reason: string): (c': Client)
    requires Closed(c)
    ensures Closed(c') && SameFrame(c, c')
  {
    var key := IntId(n);
    if key !in c.pending || c.requests[c.pending[key]].state != Waiting then c
    else CompletePending(c.(wire := c.wire + [SentCancelled(n, reason)]), key,
           Cancel(if reason == "" then "cancelled by client" else reason))
  }

  function OnProgress(c: Client, token: RequestId, progress: real, total: Option<real>): (c': Client)
    requires Closed(c)
    ensures Closed(c') && SameFrame(c, c')
  {
    if token !in c.pending then c
    else
      var n := c.pending[token];
      c.(requests := c.requests[n := DeliverProgress(c.requests[n], progress, total)])
  }

  function OnMessage(c: Client, m: Inbound): (c': Client)
    requires Closed(c)
    ensures Closed(c') && SameFrame(c, c')
  {
    match m
    case SuccessReply(id, result) => CompletePending(c, id, Success(result))
    case ErrorReply(id, code, message) => CompletePending(c, id, RpcError(code, message))
    case Progress(token, progress, total) => OnProgress(c, token, progress, total)
    case Other => c
  }

  function OnTimer(c: Client, n: int): (c': Client)
    requires Closed(c)
    ensures Closed(c') && SameFrame(c, c')
  {
    if n !in c.requests || c.requests[n].state != Waiting then c
    else CompletePending(c, IntId(n), Timeout)
  }

  function RunTask(c: Client, t: Task): (c': Client)
    requires Closed(c)
    ensures Closed(c') && SameFrame(c, c')
  {
    match t
    case RegisterTask(n) => if n in c.requests then RegisterPending(c, n) else c
    case InboundTask(m) => OnMessage(c, m)
    case TimerTask(n) => OnTimer(c, n)
    case CancelTask(n, reason) => CancelPending(c, n, reason)
    case DrainTask(reason) => FailAll(c.(connected := false), reason)
  }

  /** The second half of a successful initialize. */
  function Resume(c: Client, k: Continuation): (c': Client)
    requires Closed(c)
    ensures Closed(c') && SameFrame(c, c')
  {
    var sent := c.(running := None, wire := c.wire + [SentInitialized]);
    if k.key in c.pending then FinishKey(sent, k.key, k.outcome) else sent
  }

  function StrandAdvance(c: Client): (c': Client)
    requires Closed(c)
    ensures Closed(c')
  {
    if c.running.Some? then Resume(c, c.running.value)
    else if c.strand == [] then c
    else RunTask(c.(strand := c.strand[1..]), c.strand[0])
  }

  /** Lines 218-242: an id is drawn and the request object built. */
  function AllocateRequest(c: Client, i: nat): (c': Client)
    requires Closed(c)
    ensures Closed(c')
  {
    if i >= |c.admitted| then c
    else c.(admitted := c.admitted[..i] + c.admitted[i + 1..],
            nextId := c.nextId + 1,
            requests := c.requests[c.nextId := NewRequest(c.admitted[i], c.nextId)])
  }

  /** Line 253: the registration task joins the strand. */
  function PostRequest(c: Client, n: int): (c': Client)
    requires Closed(c)
    ensures Closed(c')
  {
    if n in c.requests && c.requests[n].phase == Created then
      WithTask(c.(requests := c.requests[n := c.requests[n].(phase := Posted)]), RegisterTask(n))
    else c
  }

  /** The steps that leave the requests alone: they post a task or set a flag. */
  function Signal(c: Client, e: Step): (c': Client)
    requires Closed(c)
    ensures Closed(c')
    ensures c'.requests == c.requests && c'.pending == c.pending && c'.nextId == c.nextId
    ensures c'.running == c.running && c'.wire == c.wire && c'.serverResult == c.serverResult
  {
    match e
    case Admit(s) => if Admissible(c, s) then c.(admitted := c.admitted + [s]) else c
    case CancelCall(n, reason) => WithTask(c, CancelTask(n, reason))
    case Deliver(m) => WithTask(c, InboundTask(m))
    case TimerExpires(n) =>
      if n in c.requests && c.requests[n].timed && c.requests[n].phase == Registered
      then WithTask(c, TimerTask(n)) else c
    case TransportDrops => WithTask(c, DrainTask("transport disconnected"))
    case DisconnectCall => WithTask(c, DrainTask("client disconnected"))
    case StopCall =>
      if c.stopping then c
      else WithTask(c.(stopping := true), DrainTask("client shutting down"))
    case ConnectRollback => c.(connected := false)
    case _ => c
  }

  function Apply(c: Client, e: Step): (c': Client)
    requires Closed(c)
    ensures Closed(c')
  {
    match e
    case StrandStep => StrandAdvance(c)
    case Allocate(i) => AllocateRequest(c, i)
    case Post(n) => PostRequest(c, n)
    case _ => Signal(c, e)
  }

  function Run(c: Client, es: seq<Step>): (c': Client)
    requires Closed(c)
    ensures Closed(c')
    decreases |es|
  {
    if |es| == 0 then c else Run(Apply(c, es[0]), es[1..])
  }
}
