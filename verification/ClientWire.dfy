/** What the client sends for each request over a whole run (src/client.cpp). */
module ClientWire {
  import opened Wrappers
  import opened RequestIds
  import opened PendingRequests
  import opened ClientModel
  import opened ClientTheorems

  function Sends(wire: seq<Sent>, n: int): nat {
    if wire == [] then 0
    else Sends(wire[..|wire| - 1], n) + (if wire[|wire| - 1].SentRequest? && wire[|wire| - 1].n == n then 1 else 0)
  }

  function Cancels(wire: seq<Sent>, n: int): nat {
    if wire == [] then 0
    else Cancels(wire[..|wire| - 1], n) + (if wire[|wire| - 1].SentCancelled? && wire[|wire| - 1].n == n then 1 else 0)
  }

  predicate IsRegistered(c: Client, n: int) {
    n in c.requests && c.requests[n].phase == Registered
  }

  /** The promise, set once and for all, says that the request was cancelled. */
  predicate IsCancelled(c: Client, n: int) {
    n in c.requests && EndedByCancel(c.requests[n])
  }

  predicate EndedByCancel(r: Request) {
    r.outcome.Some? && r.outcome.value.Cancel?
  }

  lemma FinishEnds(r: Request, o: Outcome)
    requires ExactlyOnce(r)
    ensures Finish(r, o).phase == r.phase
    ensures EndedByCancel(Finish(r, o)) == if r.state == Waiting then o.Cancel? else EndedByCancel(r)
    ensures r.state == Waiting ==> !EndedByCancel(r)
  {
  }

  /** Cancel notifications come after the request they name. */
  ghost predicate CancelsFollow(wire: seq<Sent>) {
    forall i :: 0 <= i < |wire| && wire[i].SentCancelled? ==> Sends(wire[..i], wire[i].n) >= 1
  }

  /** One send per registered request, one notification per cancelled one. */
  ghost predicate WireOk(c: Client) {
    && (forall n :: Sends(c.wire, n) == if IsRegistered(c, n) then 1 else 0)
    && (forall n :: Cancels(c.wire, n) == if IsCancelled(c, n) then 1 else 0)
    && CancelsFollow(c.wire)
    && (c.running.Some? ==> c.running.value.outcome.Success?)
  }

  lemma Append(wire: seq<Sent>, m: Sent)
    requires CancelsFollow(wire)
    requires m.SentCancelled? ==> Sends(wire, m.n) >= 1
    ensures forall n :: Sends(wire + [m], n) == Sends(wire, n) + if m.SentRequest? && m.n == n then 1 else 0
    ensures forall n :: Cancels(wire + [m], n) == Cancels(wire, n) + if m.SentCancelled? && m.n == n then 1 else 0
    ensures CancelsFollow(wire + [m])
  {
    var longer := wire + [m];
    assert longer[..|wire|] == wire;
    forall i | 0 <= i < |longer| && longer[i].SentCancelled? ensures Sends(longer[..i], longer[i].n) >= 1 {
      assert longer[..i] == wire[..i];
    }
  }

  /** Steps that register and cancel nothing, apart from the wire. */
  ghost predicate SameMarks(c: Client, c': Client) {
    forall n :: IsRegistered(c', n) == IsRegistered(c, n) && IsCancelled(c', n) == IsCancelled(c, n)
  }

  lemma FinishMarks(c: Client, key: RequestId, o: Outcome)
    requires Correlated(c) && AllExactlyOnce(c.requests) && key in c.pending && !o.Cancel?
    ensures SameMarks(c, FinishKey(c, key, o))
  {
    var n := c.pending[key];
    assert n in c.requests;
    FinishEnds(c.requests[n], o);
    OneMarked(c, FinishKey(c, key, o), n, Finish(c.requests[n], o));
  }

  /** Replacing one request by one with the same marks keeps all marks. */
  lemma OneMarked(c: Client, c': Client, n: int, r: Request)
    requires n in c.requests && c'.requests == c.requests[n := r]
    ensures forall m :: m != n ==> IsRegistered(c', m) == IsRegistered(c, m) && IsCancelled(c', m) == IsCancelled(c, m)
    ensures IsRegistered(c', n) == (r.phase == Registered) && IsCancelled(c', n) == EndedByCancel(r)
  {
  }

  lemma CompleteWire(c: Client, key: RequestId, o: Outcome)
    requires Correlated(c) && AllExactlyOnce(c.requests) && WireOk(c) && c.running.None? && !o.Cancel?
    ensures WireOk(CompletePending(c, key, o))
  {
    if key in c.pending {
      FinishMarks(c, key, o);
      FinishMarks(c, key, UNSUPPORTED);
    }
  }

  lemma FailAllMarks(c: Client, reason: string)
    requires Closed(c) && AllExactlyOnce(c.requests)
    ensures SameMarks(c, FailAll(c, reason))
  {
    forall n | n in c.requests
      ensures IsCancelled(FailAll(c, reason), n) == IsCancelled(c, n)
    {
      assert ExactlyOnce(c.requests[n]);
    }
  }

  lemma CancelShape(c: Client, n: int, reason: string, o: Outcome)
    requires Closed(c) && IntId(n) in c.pending && c.pending[IntId(n)] == n && c.requests[n].state == Waiting
    requires o == Cancel(if reason == "" then "cancelled by client" else reason)
    ensures var c' := CancelPending(c, n, reason);
            && c'.wire == c.wire + [SentCancelled(n, reason)] && c'.running == c.running
            && c'.requests == c.requests[n := Finish(c.requests[n], o)]
  {
  }

  lemma CancelWire(c: Client, n: int, reason: string)
    requires Correlated(c) && AllExactlyOnce(c.requests) && WireOk(c) && c.running.None?
    ensures WireOk(CancelPending(c, n, reason))
  {
    var key := IntId(n);
    if key in c.pending && c.requests[c.pending[key]].state == Waiting {
      assert c.pending[key] == n && n in c.requests;
      assert IsRegistered(c, n);
      Append(c.wire, SentCancelled(n, reason));
      var o := Cancel(if reason == "" then "cancelled by client" else reason);
      CancelShape(c, n, reason, o);
      FinishEnds(c.requests[n], o);
      OneMarked(c, CancelPending(c, n, reason), n, Finish(c.requests[n], o));
    }
  }

  lemma RegisterWire(c: Client, n: int)
    requires WireOk(c) && n in c.requests && c.requests[n].phase == Posted
    ensures WireOk(RegisterPending(c, n))
  {
    Append(c.wire, SentRequest(n, c.requests[n].verb, SentToken(c.requests[n])));
    OneMarked(c, RegisterPending(c, n), n, c.requests[n].(phase := Registered));
  }

  lemma MessageWire(c: Client, m: Inbound)
    requires Correlated(c) && AllExactlyOnce(c.requests) && WireOk(c) && c.running.None?
    ensures WireOk(OnMessage(c, m))
  {
    match m
    case SuccessReply(id, result) => CompleteWire(c, id, Success(result));
    case ErrorReply(id, code, message) => CompleteWire(c, id, RpcError(code, message));
    case Progress(token, progress, total) =>
      if token in c.pending {
        var n := c.pending[token];
        OneMarked(c, OnMessage(c, m), n, DeliverProgress(c.requests[n], progress, total));
      }
    case Other =>
  }

  lemma RunTaskWire(c: Client, t: Task)
    requires Correlated(c) && AllExactlyOnce(c.requests) && WireOk(c) && c.running.None?
    requires t.RegisterTask? ==> t.n in c.requests && c.requests[t.n].phase == Posted
    ensures WireOk(RunTask(c, t))
  {
    match t
    case RegisterTask(n) => RegisterWire(c, n);
    case InboundTask(m) => MessageWire(c, m);
    case TimerTask(n) => CompleteWire(c, IntId(n), Timeout);
    case CancelTask(n, reason) => CancelWire(c, n, reason);
    case DrainTask(reason) => FailAllMarks(c.(connected := false), reason);
  }

  lemma StrandWire(c: Client)
    requires Sound(c) && AllExactlyOnce(c.requests) && WireOk(c)
    ensures WireOk(StrandAdvance(c))
  {
    if c.running.Some? {
      var k := c.running.value;
      var sent := c.(running := None, wire := c.wire + [SentInitialized]);
      Append(c.wire, SentInitialized);
      FinishMarks(sent, k.key, k.outcome);
    } else if c.strand != [] {
      var popped := c.(strand := c.strand[1..]);
      assert Correlated(popped) && WireOk(popped);
      RunTaskWire(popped, c.strand[0]);
    }
  }

  lemma StepWire(c: Client, e: Step)
    requires Sound(c) && AllExactlyOnce(c.requests) && WireOk(c)
    ensures WireOk(Apply(c, e))
  {
    match e
    case StrandStep => StrandWire(c);
    case Allocate(i) => AllocateWire(c, i);
    case Post(n) => PostWire(c, n);
    case _ => SignalWire(c, e);
  }

  lemma AllocateWire(c: Client, i: nat)
    requires Sound(c) && WireOk(c)
    ensures WireOk(AllocateRequest(c, i))
  {
    assert c.nextId !in c.requests;
    assert SameMarks(c, AllocateRequest(c, i));
  }

  lemma PostWire(c: Client, n: int)
    requires Closed(c) && WireOk(c)
    ensures WireOk(PostRequest(c, n))
  {
    if n in c.requests && c.requests[n].phase == Created {
      OneMarked(c, PostRequest(c, n), n, c.requests[n].(phase := Posted));
    }
  }

  lemma SignalWire(c: Client, e: Step)
    requires Closed(c) && WireOk(c)
    ensures WireOk(Signal(c, e))
  {
    assert SameMarks(c, Signal(c, e));
  }

  lemma {:induction false} RunWire(c: Client, es: seq<Step>)
    requires Sound(c) && AllExactlyOnce(c.requests) && WireOk(c) && TokensOk(Run(c, es))
    ensures WireOk(Run(c, es))
    decreases |es|
  {
    if es != [] {
      var c' := Apply(c, es[0]);
      StepOutcomes(c, es[0]);
      RunOutcomes(c', es[1..]);
      assert TokensOk(c') by {
        forall n | n in c'.requests ensures TokenOk(c'.requests[n], n) {
          assert Evolves(c'.requests[n], Run(c', es[1..]).requests[n]);
        }
      }
      StepSound(c, es[0]);
      StepWire(c, es[0]);
      RunWire(c', es[1..]);
    }
  }

  /** On every run with good tokens: each request goes out exactly once, when it
      is registered, and a cancel notification goes out exactly once for each
      request whose outcome is a cancellation, after it, and for no other. */
  lemma WireExact(es: seq<Step>)
    requires TokensOk(Run(START, es))
    ensures WireOk(Run(START, es))
  {
    RunWire(START, es);
  }
}
