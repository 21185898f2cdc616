/**
 * What each event does to the request it concerns (src/client.cpp), from the
 * thread that posts it to the turn of the strand that handles it; and the order
 * in which requests leave.
 */
module ClientEffects {
  import opened Wrappers
  import opened RequestIds
  import opened PendingRequests
  import opened ClientModel
  import opened ClientTheorems
  import Seqs

  // --------------------------------------------------------- events and effects

  /** The strand has nothing to do. */
  predicate Idle(c: Client) {
    c.strand == [] && c.running.None?
  }

  /** n is registered and waits in a correlated table. */
  ghost predicate Awaits(c: Client, n: int) {
    && Correlated(c) && TokensOk(c) && n in c.requests && ExactlyOnce(c.requests[n])
    && c.requests[n].phase == Registered && c.requests[n].state == Waiting
  }

  /** The event, then the turn of the strand it asks for. */
  function Handle(c: Client, e: Step): Client
    requires Closed(c)
  {
    Apply(Apply(c, e), StrandStep)
  }

  /** n ended with this outcome, in every place that records it, and nobody else changed. */
  ghost predicate EndsWith(c: Client, c': Client, n: int, o: Outcome)
    requires n in c.requests
  {
    && c'.requests.Keys == c.requests.Keys
    && (forall m :: m in c.requests && m != n ==> c'.requests[m] == c.requests[m])
    && c'.requests[n].outcome == Some(o) && c'.requests[n].promise == Some(o)
    && Agrees(c'.requests[n].state, o)
    && IntId(n) !in c'.pending
  }

  lemma CompleteEnds(c: Client, n: int, o: Outcome)
    requires Awaits(c, n) && !(o.Success? && c.requests[n].verb == METHOD_INITIALIZE)
    ensures EndsWith(c, CompletePending(c, IntId(n), o), n, o)
    ensures CompletePending(c, IntId(n), o).wire == c.wire
  {
    assert c.pending[IntId(n)] == n;
    FinishExactlyOnce(c.requests[n], o);
  }

  lemma Posted(c: Client, e: Step, t: Task)
    requires Closed(c) && Idle(c) && Apply(c, e).strand == [t] && Apply(c, e).running.None?
    ensures Handle(c, e) == RunTask(Apply(c, e).(strand := []), t)
  {
    assert Apply(c, e).strand[1..] == [];
  }

  /** An error reply ends the request with its code and message. */
  lemma ErrorReplyEnds(c: Client, n: int, code: int, message: string)
    requires Awaits(c, n) && Idle(c)
    ensures EndsWith(c, Handle(c, Deliver(ErrorReply(IntId(n), code, message))), n, RpcError(code, message))
  {
    Posted(c, Deliver(ErrorReply(IntId(n), code, message)), InboundTask(ErrorReply(IntId(n), code, message)));
    CompleteEnds(c, n, RpcError(code, message));
  }

  /** A result ends an ordinary request with it. */
  lemma SuccessReplyEnds(c: Client, n: int, result: Payload)
    requires Awaits(c, n) && Idle(c) && c.requests[n].verb != METHOD_INITIALIZE
    ensures EndsWith(c, Handle(c, Deliver(SuccessReply(IntId(n), result))), n, Success(result))
  {
    Posted(c, Deliver(SuccessReply(IntId(n), result)), InboundTask(SuccessReply(IntId(n), result)));
    CompleteEnds(c, n, Success(result));
  }

  /** The timer ends a timed request; others have none. */
  lemma TimerEnds(c: Client, n: int)
    requires Awaits(c, n) && Idle(c)
    ensures if c.requests[n].timed then EndsWith(c, Handle(c, TimerExpires(n)), n, Timeout)
            else Handle(c, TimerExpires(n)) == c
  {
    if c.requests[n].timed {
      Posted(c, TimerExpires(n), TimerTask(n));
      CompleteEnds(c, n, Timeout);
    }
  }

  /** Cancelling tells the peer and ends the request with the reason given. */
  lemma CancelEnds(c: Client, n: int, reason: string)
    requires Awaits(c, n) && Idle(c)
    ensures var c' := Handle(c, CancelCall(n, reason));
            && EndsWith(c, c', n, Cancel(if reason == "" then "cancelled by client" else reason))
            && c'.wire == c.wire + [SentCancelled(n, reason)]
  {
    Posted(c, CancelCall(n, reason), CancelTask(n, reason));
    var o := Cancel(if reason == "" then "cancelled by client" else reason);
    CompleteEnds(c.(wire := c.wire + [SentCancelled(n, reason)]), n, o);
  }

  /** A timer or a cancel that comes after the end changes nothing at all. */
  lemma LateChangesNothing(c: Client, n: int, reason: string)
    requires Correlated(c) && n in c.requests && c.requests[n].state != Waiting
    ensures RunTask(c, TimerTask(n)) == c && RunTask(c, CancelTask(n, reason)) == c
  {
  }

  /** What each way of losing the connection tells the waiting requests. */
  function DropReason(e: Step): string {
    match e
    case TransportDrops => "transport disconnected"
    case DisconnectCall => "client disconnected"
    case _ => "client shutting down"
  }

  /** A lost connection ends every registered waiting request and no other; only
      stop() also closes the client for good. */
  lemma DropEnds(c: Client, e: Step)
    requires Correlated(c) && Idle(c) && AllExactlyOnce(c.requests)
    requires e.TransportDrops? || e.DisconnectCall? || (e.StopCall? && !c.stopping)
    ensures var c' := Handle(c, e);
            && !c'.connected && c'.pending == map[] && c'.stopping == (c.stopping || e.StopCall?)
            && c'.requests.Keys == c.requests.Keys
            && forall n :: n in c.requests ==>
                 if c.requests[n].phase == Registered && c.requests[n].state == Waiting
                 then
                   && c'.requests[n].outcome == Some(Failure(DropReason(e)))
                   && Agrees(c'.requests[n].state, Failure(""))
                 else c'.requests[n] == c.requests[n]
  {
    Posted(c, e, DrainTask(DropReason(e)));
    forall n | n in c.requests && c.requests[n].phase == Registered && c.requests[n].state == Waiting
      ensures n in c.pending.Values
    {
      assert c.pending[IntId(n)] == n;
    }
    forall n | n in c.requests
      ensures c.requests[n].state == Waiting ==>
                Finish(c.requests[n], Failure(DropReason(e))).outcome == Some(Failure(DropReason(e)))
    {
      FinishExactlyOnce(c.requests[n], Failure(DropReason(e)));
    }
    assert forall k :: k in c.pending ==> c.requests[c.pending[k]].phase == Registered;
  }

  /** stop() closes the client: it stays closed, and admits nothing, on every run. */
  lemma {:induction false} StoppedForever(c: Client, es: seq<Step>)
    requires Closed(c) && c.stopping
    ensures Run(c, es).stopping && |Run(c, es).admitted| <= |c.admitted|
    decreases |es|
  {
    if es != [] {
      StopStays(c, es[0]);
      StoppedForever(Apply(c, es[0]), es[1..]);
    }
  }

  lemma StopStays(c: Client, e: Step)
    requires Closed(c) && c.stopping
    ensures Apply(c, e).stopping && |Apply(c, e).admitted| <= |c.admitted|
  {
  }

  /** A second stop() does nothing, and a connect() that gives up takes back only
      the connection. */
  lemma StopOnce(c: Client)
    requires Closed(c)
    ensures c.stopping ==> Apply(c, StopCall) == c
    ensures Apply(c, ConnectRollback) == c.(connected := false)
  {
  }

  /** How many submissions were admitted on a run. */
  function AdmitCount(c: Client, es: seq<Step>): nat
    requires Closed(c)
    decreases |es|
  {
    if es == [] then 0
    else
      (if es[0].Admit? && Admissible(c, es[0].submission) then 1 else 0) + AdmitCount(Apply(c, es[0]), es[1..])
  }

  lemma AdmitsCounted(c: Client, e: Step)
    requires Closed(c)
    ensures var c' := Apply(c, e);
            |c'.admitted| + c'.nextId
            == |c.admitted| + c.nextId + if e.Admit? && Admissible(c, e.submission) then 1 else 0
  {
  }

  lemma {:induction false} RunCounted(c: Client, es: seq<Step>)
    requires Closed(c)
    ensures |Run(c, es).admitted| + Run(c, es).nextId == |c.admitted| + c.nextId + AdmitCount(c, es)
    decreases |es|
  {
    if es != [] {
      AdmitsCounted(c, es[0]);
      RunCounted(Apply(c, es[0]), es[1..]);
    }
  }

  /** No admitted submission is forgotten: on every run each has become a request,
      with an id of its own, or still awaits its id. */
  lemma NoneForgotten(es: seq<Step>)
    ensures var c := Run(START, es);
            AdmitCount(START, es) == |c.admitted| + (c.nextId - 1)
  {
    RunCounted(START, es);
  }

  /** Drawing an id takes one submission, and makes the request it describes. */
  lemma AllocateTakesOne(c: Client, i: nat)
    requires Closed(c) && i < |c.admitted|
    ensures var c', s, n := Apply(c, Allocate(i)), c.admitted[i], c.nextId;
            && multiset(c'.admitted) + multiset{s} == multiset(c.admitted)
            && c'.nextId == n + 1 && c'.requests.Keys == c.requests.Keys + {n}
            && c'.requests[n].verb == s.verb && c'.requests[n].state == Waiting && c'.requests[n].phase == Created
  {
    assert c.admitted == c.admitted[..i] + [c.admitted[i]] + c.admitted[i + 1..];
  }

  /** A submission is admitted exactly when the client is open and connected, or
      it is the initialize that connects it. */
  lemma AdmitExact(c: Client, s: Submission)
    requires Closed(c)
    ensures Apply(c, Admit(s)) ==
            if !c.stopping && (c.connected || s.verb == "initialize") then c.(admitted := c.admitted + [s]) else c
  {
  }

  /** A supported initialize result connects the client, tells the peer and ends
      the request. */
  lemma InitializeAccepted(c: Client, n: int, result: Payload)
    requires Awaits(c, n) && Idle(c) && c.requests[n].verb == METHOD_INITIALIZE
    requires result.decodes && result.version.Some? && IsSupportedVersion(result.version.value)
    ensures var c2 := Apply(Handle(c, Deliver(SuccessReply(IntId(n), result))), StrandStep);
            && c2.connected && c2.initialized && c2.serverResult == Some(result)
            && c2.wire == c.wire + [SentInitialized] && EndsWith(c, c2, n, Success(result))
  {
    Posted(c, Deliver(SuccessReply(IntId(n), result)), InboundTask(SuccessReply(IntId(n), result)));
    assert c.pending[IntId(n)] == n;
    FinishExactlyOnce(c.requests[n], Success(result));
  }

  /** Any other initialize result ends the request with an error and connects
      nothing. */
  lemma InitializeRefused(c: Client, n: int, result: Payload)
    requires Awaits(c, n) && Idle(c) && c.requests[n].verb == METHOD_INITIALIZE
    requires !(result.decodes && result.version.Some? && IsSupportedVersion(result.version.value))
    ensures var c1 := Handle(c, Deliver(SuccessReply(IntId(n), result)));
            && c1.connected == c.connected && c1.serverResult == c.serverResult && c1.wire == c.wire
            && EndsWith(c, c1, n, RpcError(INVALID_REQUEST, "server negotiated an unsupported protocolVersion"))
  {
    Posted(c, Deliver(SuccessReply(IntId(n), result)), InboundTask(SuccessReply(IntId(n), result)));
    assert c.pending[IntId(n)] == n;
    FinishExactlyOnce(c.requests[n], UNSUPPORTED);
  }

  // ------------------------------------------------------------ order of sending

  function SentIds(wire: seq<Sent>): seq<int> {
    if wire == [] then []
    else SentIds(wire[..|wire| - 1]) + (if wire[|wire| - 1].SentRequest? then [wire[|wire| - 1].n] else [])
  }

  function PostedIds(strand: seq<Task>): seq<int> {
    if strand == [] then []
    else (if strand[0].RegisterTask? then [strand[0].n] else []) + PostedIds(strand[1..])
  }

  /** The requests that were posted, in the order of posting. */
  function PostOrder(c: Client, es: seq<Step>): seq<int>
    requires Closed(c)
    decreases |es|
  {
    if es == [] then []
    else PostedNow(c, es[0]) + PostOrder(Apply(c, es[0]), es[1..])
  }

  function PostedNow(c: Client, e: Step): seq<int> {
    if e.Post? && e.n in c.requests && c.requests[e.n].phase == Created then [e.n] else []
  }

  predicate TasksKnown(c: Client) {
    forall i :: 0 <= i < |c.strand| && c.strand[i].RegisterTask? ==> c.strand[i].n in c.requests
  }

  lemma SentMore(wire: seq<Sent>, m: Sent)
    ensures SentIds(wire + [m]) == SentIds(wire) + if m.SentRequest? then [m.n] else []
  {
    assert (wire + [m])[..|wire|] == wire;
  }

  lemma {:induction false} PostedMore(strand: seq<Task>, t: Task)
    ensures PostedIds(strand + [t]) == PostedIds(strand) + if t.RegisterTask? then [t.n] else []
    decreases |strand|
  {
    if strand == [] {
      assert [] + [t] == [t] && [t][1..] == [];
    } else {
      assert (strand + [t])[0] == strand[0] && (strand + [t])[1..] == strand[1..] + [t];
      PostedMore(strand[1..], t);
      Seqs.Assoc(if strand[0].RegisterTask? then [strand[0].n] else [], PostedIds(strand[1..]),
                 if t.RegisterTask? then [t.n] else []);
    }
  }

  /** Requests on the wire, then those still on the strand. */
  function Outgoing(c: Client): seq<int> {
    SentIds(c.wire) + PostedIds(c.strand)
  }

  lemma QuietSends(c: Client, c': Client, m: Sent)
    requires c'.strand == c.strand && (c'.wire == c.wire || c'.wire == c.wire + [m]) && !m.SentRequest?
    ensures Outgoing(c') == Outgoing(c)
  {
    SentMore(c.wire, m);
  }

  lemma RunTaskOrder(c: Client, t: Task)
    requires Closed(c) && (t.RegisterTask? ==> t.n in c.requests)
    ensures Outgoing(RunTask(c, t)) == SentIds(c.wire) + (if t.RegisterTask? then [t.n] else []) + PostedIds(c.strand)
  {
    match t
    case RegisterTask(n) => SentMore(c.wire, SentRequest(n, c.requests[n].verb, SentToken(c.requests[n])));
    case CancelTask(n, reason) => QuietSends(c, RunTask(c, t), SentCancelled(n, reason));
    case _ => QuietSends(c, RunTask(c, t), SentInitialized);
  }

  lemma StrandOrder(c: Client)
    requires Closed(c) && TasksKnown(c)
    ensures Outgoing(StrandAdvance(c)) == Outgoing(c) && TasksKnown(StrandAdvance(c))
  {
    if c.running.Some? {
      QuietSends(c, StrandAdvance(c), SentInitialized);
    } else if c.strand != [] {
      var t := c.strand[0];
      RunTaskOrder(c.(strand := c.strand[1..]), t);
      Seqs.Assoc(SentIds(c.wire), if t.RegisterTask? then [t.n] else [], PostedIds(c.strand[1..]));
    }
  }

  lemma SignalOrder(c: Client, e: Step)
    requires Closed(c) && TasksKnown(c) && !e.StrandStep? && !e.Allocate? && !e.Post?
    ensures Outgoing(Signal(c, e)) == Outgoing(c) && TasksKnown(Signal(c, e))
  {
    var c' := Signal(c, e);
    if c'.strand != c.strand {
      var t := c'.strand[|c.strand|];
      assert c'.strand == c.strand + [t] && !t.RegisterTask?;
      PostedMore(c.strand, t);
    }
  }

  lemma PostOrderStep(c: Client, n: int)
    requires Closed(c) && TasksKnown(c)
    ensures Outgoing(PostRequest(c, n)) == Outgoing(c) + PostedNow(c, Post(n)) && TasksKnown(PostRequest(c, n))
  {
    PostedMore(c.strand, RegisterTask(n));
    Seqs.Assoc(SentIds(c.wire), PostedIds(c.strand), [n]);
  }

  lemma StepOrder(c: Client, e: Step)
    requires Closed(c) && TasksKnown(c)
    ensures Outgoing(Apply(c, e)) == Outgoing(c) + PostedNow(c, e) && TasksKnown(Apply(c, e))
  {
    match e
    case StrandStep => StrandOrder(c);
    case Allocate(i) =>
    case Post(n) => PostOrderStep(c, n);
    case _ => SignalOrder(c, e);
  }

  lemma {:induction false} RunOrder(c: Client, es: seq<Step>)
    requires Closed(c) && TasksKnown(c)
    ensures Outgoing(Run(c, es)) == Outgoing(c) + PostOrder(c, es)
    decreases |es|
  {
    if es != [] {
      StepOrder(c, es[0]);
      RunOrder(Apply(c, es[0]), es[1..]);
      Seqs.Assoc(Outgoing(c), PostedNow(c, es[0]), PostOrder(Apply(c, es[0]), es[1..]));
    }
  }

  /** On every run the requests on the wire are the posted ones, in the order of
      posting, up to those still on the strand. */
  lemma SentInOrder(es: seq<Step>)
    ensures SentIds(Run(START, es).wire) + PostedIds(Run(START, es).strand) == PostOrder(START, es)
  {
    RunOrder(START, es);
    Seqs.Units(PostOrder(START, es));
  }

  // ----------------------------------------------------------- what is written

  /** Every request on the wire names a request, its method, and its token exactly
      when it has a progress callback. */
  ghost predicate WireTrue(c: Client) {
    forall i :: 0 <= i < |c.wire| && c.wire[i].SentRequest? ==>
      c.wire[i].n in c.requests && Describes(c.wire[i], c.requests[c.wire[i].n])
  }

  predicate Describes(m: Sent, r: Request)
    requires m.SentRequest?
  {
    m.verb == r.verb && if r.hasProgress then m.token == Some(r.token) else m.token.None?
  }

  lemma TrueMore(c: Client, c': Client, m: Sent)
    requires WireTrue(c) && AllEvolve(c.requests, c'.requests)
    requires c'.wire == c.wire || c'.wire == c.wire + [m]
    requires m.SentRequest? && c'.wire != c.wire ==> m.n in c'.requests && Describes(m, c'.requests[m.n])
    ensures WireTrue(c')
  {
    forall i | 0 <= i < |c.wire| && c.wire[i].SentRequest?
      ensures c.wire[i].n in c'.requests && Evolves(c.requests[c.wire[i].n], c'.requests[c.wire[i].n])
    {
    }
  }

  /** The one thing a step may write. */
  function Written(c: Client, e: Step): Sent {
    if c.running.Some? || c.strand == [] then SentInitialized
    else match c.strand[0]
      case RegisterTask(n) =>
        if n in c.requests then SentRequest(n, c.requests[n].verb, SentToken(c.requests[n])) else SentInitialized
      case CancelTask(n, reason) => SentCancelled(n, reason)
      case _ => SentInitialized
  }

  lemma StepTrue(c: Client, e: Step)
    requires Closed(c) && AllExactlyOnce(c.requests) && Numbered(c) && WireTrue(c)
    ensures WireTrue(Apply(c, e))
  {
    StepOutcomes(c, e);
    StepWrites(c, e);
    var m := Written(c, e);
    if m.SentRequest? {
      assert Evolves(c.requests[m.n], Apply(c, e).requests[m.n]);
    }
    TrueMore(c, Apply(c, e), m);
  }

  lemma StepWrites(c: Client, e: Step)
    requires Closed(c)
    ensures Apply(c, e).wire == c.wire || (e.StrandStep? && Apply(c, e).wire == c.wire + [Written(c, e)])
  {
    if e.StrandStep? && c.running.None? && c.strand != [] {
      TaskWrites(c.(strand := c.strand[1..]), c.strand[0]);
    }
  }

  lemma TaskWrites(c: Client, t: Task)
    requires Closed(c)
    ensures var c' := RunTask(c, t);
            match t
            case RegisterTask(n) =>
              c'.wire == c.wire
              || (n in c.requests && c'.wire == c.wire + [SentRequest(n, c.requests[n].verb, SentToken(c.requests[n]))])
            case CancelTask(n, reason) => c'.wire == c.wire || c'.wire == c.wire + [SentCancelled(n, reason)]
            case _ => c'.wire == c.wire
  {
  }

  lemma {:induction false} RunTrue(c: Client, es: seq<Step>)
    requires Closed(c) && AllExactlyOnce(c.requests) && Numbered(c) && WireTrue(c)
    ensures WireTrue(Run(c, es))
    decreases |es|
  {
    if es != [] {
      StepOutcomes(c, es[0]);
      StepTrue(c, es[0]);
      RunTrue(Apply(c, es[0]), es[1..]);
    }
  }

  lemma WireTells(es: seq<Step>)
    ensures WireTrue(Run(START, es))
  {
    RunTrue(START, es);
  }
}
