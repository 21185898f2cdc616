/** The order of the initialize handshake on the wire (src/client.cpp). */
module ClientHandshake {
  import opened RequestIds
  import opened PendingRequests
  import opened ClientModel

  predicate IsOrdinary(m: Sent) {
    m.SentRequest? && m.verb != METHOD_INITIALIZE
  }

  /** Every request other than initialize follows a notifications/initialized. */
  ghost predicate HandshakeFirst(wire: seq<Sent>) {
    forall i :: 0 <= i < |wire| && IsOrdinary(wire[i]) ==> SentInitialized in wire[..i]
  }

  /** Somebody may still get an ordinary request onto the wire. */
  ghost predicate OrdinaryUnderWay(c: Client) {
    || c.connected
    || (exists i :: 0 <= i < |c.admitted| && c.admitted[i].verb != METHOD_INITIALIZE)
    || (exists n :: n in c.requests && c.requests[n].verb != METHOD_INITIALIZE)
  }

  ghost predicate HandshakeInvariant(c: Client) {
    && HandshakeFirst(c.wire)
    && (c.serverResult.Some? ==> HandshakeOk(c.serverResult.value))
    && (c.connected ==> c.serverResult.Some?)
    && (OrdinaryUnderWay(c) ==> SentInitialized in c.wire || c.running.Some?)
  }

  lemma Extend(wire: seq<Sent>, m: Sent)
    requires HandshakeFirst(wire)
    requires IsOrdinary(m) ==> SentInitialized in wire
    ensures HandshakeFirst(wire + [m])
    ensures SentInitialized in wire || m == SentInitialized ==> SentInitialized in wire + [m]
  {
    var longer := wire + [m];
    forall i | 0 <= i < |longer| && IsOrdinary(longer[i]) ensures SentInitialized in longer[..i] {
      assert longer[..i] == wire[..i];
      if i == |wire| { assert wire[..i] == wire; }
    }
    assert longer[|wire|] == m;
    if SentInitialized in wire {
      var j :| 0 <= j < |wire| && wire[j] == SentInitialized;
      assert longer[j] == SentInitialized;
    }
  }

  /** Only the handshake branch of complete_pending changes the flags. */
  ghost predicate SameHandshake(c: Client, c': Client) {
    && c'.serverResult == c.serverResult && c'.running == c.running && c'.wire == c.wire
    && c'.admitted == c.admitted
    && (c'.connected ==> c.connected)
    && c'.requests.Keys == c.requests.Keys
    && (forall n :: n in c.requests ==> c'.requests[n].verb == c.requests[n].verb)
  }

  lemma SameHandshakeKeeps(c: Client, c': Client)
    requires HandshakeInvariant(c) && SameHandshake(c, c')
    ensures HandshakeInvariant(c')
  {
  }

  lemma FinishKeyHandshake(c: Client, key: RequestId, o: Outcome)
    requires Closed(c) && HandshakeInvariant(c) && key in c.pending
    ensures HandshakeInvariant(FinishKey(c, key, o))
  {
    assert SameHandshake(c, FinishKey(c, key, o));
  }

  lemma CompleteHandshake(c: Client, key: RequestId, o: Outcome)
    requires Closed(c) && HandshakeInvariant(c) && c.running.None?
    ensures HandshakeInvariant(CompletePending(c, key, o))
  {
    if key in c.pending {
      FinishKeyHandshake(c, key, o);
      FinishKeyHandshake(c, key, UNSUPPORTED);
    }
  }

  lemma RegisterHandshake(c: Client, n: int)
    requires Closed(c) && HandshakeInvariant(c) && c.running.None? && n in c.requests
    ensures HandshakeInvariant(RegisterPending(c, n))
  {
    Extend(c.wire, SentRequest(n, c.requests[n].verb, SentToken(c.requests[n])));
    SameHandshakeKeeps(c, RegisterPending(c, n).(wire := c.wire));
  }

  lemma RunTaskHandshake(c: Client, t: Task)
    requires Closed(c) && HandshakeInvariant(c) && c.running.None?
    ensures HandshakeInvariant(RunTask(c, t))
  {
    match t
    case RegisterTask(n) =>
      if n in c.requests { RegisterHandshake(c, n); }
    case InboundTask(m) =>
      match m {
        case SuccessReply(id, result) => CompleteHandshake(c, id, Success(result));
        case ErrorReply(id, code, message) => CompleteHandshake(c, id, RpcError(code, message));
        case Progress(_, _, _) => SameHandshakeKeeps(c, RunTask(c, t));
        case Other =>
      }
    case TimerTask(n) => CompleteHandshake(c, IntId(n), Timeout);
    case CancelTask(n, reason) =>
      Extend(c.wire, SentCancelled(n, reason));
      CompleteHandshake(c.(wire := c.wire + [SentCancelled(n, reason)]), IntId(n),
                        Cancel(if reason == "" then "cancelled by client" else reason));
    case DrainTask(reason) => SameHandshakeKeeps(c, RunTask(c, t));
  }

  lemma StrandHandshake(c: Client)
    requires Closed(c) && HandshakeInvariant(c)
    ensures HandshakeInvariant(StrandAdvance(c))
  {
    if c.running.Some? {
      Extend(c.wire, SentInitialized);
    } else if c.strand != [] {
      var popped := c.(strand := c.strand[1..]);
      SameHandshakeKeeps(c, popped);
      RunTaskHandshake(popped, c.strand[0]);
    }
  }

  lemma AllocateHandshake(c: Client, i: nat)
    requires Closed(c) && HandshakeInvariant(c)
    ensures HandshakeInvariant(AllocateRequest(c, i))
  {
    var c' := AllocateRequest(c, i);
    if i < |c.admitted| {
      assert forall j :: 0 <= j < |c'.admitted| ==>
          c'.admitted[j] == (if j < i then c.admitted[j] else c.admitted[j + 1]);
    }
  }

  lemma StepHandshake(c: Client, e: Step)
    requires Closed(c) && HandshakeInvariant(c)
    ensures HandshakeInvariant(Apply(c, e))
  {
    match e
    case StrandStep => StrandHandshake(c);
    case Allocate(i) => AllocateHandshake(c, i);
    case Post(n) => SameHandshakeKeeps(c, PostRequest(c, n));
    case _ => SignalHandshake(c, e);
  }

  lemma SignalHandshake(c: Client, e: Step)
    requires Closed(c) && HandshakeInvariant(c)
    ensures HandshakeInvariant(Signal(c, e))
  {
    if !e.Admit? {
      SameHandshakeKeeps(c, Signal(c, e));
    } else {
      var c' := Signal(c, e);
      assert c'.connected == c.connected && (c'.admitted != c.admitted ==> Admissible(c, e.submission));
    }
  }

  lemma {:induction false} RunHandshake(c: Client, es: seq<Step>)
    requires Closed(c) && HandshakeInvariant(c)
    ensures HandshakeInvariant(Run(c, es))
    decreases |es|
  {
    if es != [] {
      StepHandshake(c, es[0]);
      RunHandshake(Apply(c, es[0]), es[1..]);
    }
  }

  /** On every run: initialized before the first ordinary request, and a
      connected client holds a server result of a supported version. */
  lemma HandshakeOrder(es: seq<Step>)
    ensures var c := Run(START, es);
            && HandshakeFirst(c.wire)
            && (c.connected ==> c.serverResult.Some? && c.serverResult.value.version.Some?
                                && c.serverResult.value.version.value in {"2025-06-18", "2025-03-26"})
  {
    RunHandshake(START, es);
  }
}
