/** Consequences of the table invariant: whom a task may finish, what a drain
    leaves behind, and when state() is stable. */
module ClientGuarantees {
  import opened Wrappers
  import opened RequestIds
  import opened PendingRequests
  import opened ClientModel
  import opened ClientTheorems

  // ------------------------------------------------------ whom a task touches

  /** The request number a task is addressed to. */
  function Addressee(t: Task): Option<int> {
    match t
    case TimerTask(n) => Some(n)
    case CancelTask(n, _) => Some(n)
    case InboundTask(SuccessReply(IntId(n), _)) => Some(n)
    case InboundTask(ErrorReply(IntId(n), _, _)) => Some(n)
    case _ => None
  }

  lemma CompleteTouches(c: Client, key: RequestId, o: Outcome)
    requires Correlated(c) && TokensOk(c)
    ensures var c' := CompletePending(c, key, o);
            forall m :: m in c.requests && (key.IntId? ==> m != key.num) && (key.StrId? ==> c.requests[m].token != key)
              ==> c'.requests[m] == c.requests[m]
  {
    if key in c.pending {
      FinishKeyCorrelated(c, key, o);
      FinishKeyCorrelated(c, key, UNSUPPORTED);
    }
  }

  /** A reply, timeout or cancel for id n leaves every other request alone. */
  lemma OnlyTheAddressee(c: Client, t: Task)
    requires Correlated(c) && TokensOk(c) && Addressee(t).Some?
    ensures forall m :: m in c.requests && m != Addressee(t).value ==> RunTask(c, t).requests[m] == c.requests[m]
  {
    match t
    case TimerTask(n) => CompleteTouches(c, IntId(n), Timeout);
    case CancelTask(n, reason) =>
      CompleteTouches(c.(wire := c.wire + [SentCancelled(n, reason)]), IntId(n),
                      Cancel(if reason == "" then "cancelled by client" else reason));
    case InboundTask(SuccessReply(id, result)) => CompleteTouches(c, id, Success(result));
    case InboundTask(ErrorReply(id, code, message)) => CompleteTouches(c, id, RpcError(code, message));
  }

  /** Progress reaches only a request that holds the token or has it as its id. */
  lemma ProgressReachesHolder(c: Client, token: RequestId, progress: real, total: Option<real>)
    requires Correlated(c) && TokensOk(c)
    ensures var c' := RunTask(c, InboundTask(Progress(token, progress, total)));
            && c'.wire == c.wire && c'.pending == c.pending
            && forall m :: m in c.requests && c'.requests[m] != c.requests[m] ==>
                 && (token == IntId(m) || token == c.requests[m].token)
                 && c.requests[m].state == Waiting && c.requests[m].hasProgress
                 && c'.requests[m] == c.requests[m].(log := c.requests[m].log + [Progressed(progress, total)])
  {
    assert token in c.pending ==> token == IntId(c.pending[token]) || token == c.requests[c.pending[token]].token;
  }

  /** The other direction: a reply to a registered Waiting request finishes it
      with that reply. */
  lemma ReplyFinishesAddressee(c: Client, n: int, o: Outcome)
    requires Correlated(c) && TokensOk(c) && n in c.requests && ExactlyOnce(c.requests[n])
    requires c.requests[n].phase == Registered && c.requests[n].state == Waiting
    requires o.Success? ==> c.requests[n].verb != METHOD_INITIALIZE
    ensures var c' := CompletePending(c, IntId(n), o);
            && c'.requests[n] == Finish(c.requests[n], o)
            && c'.requests[n].outcome == Some(o) && c'.requests[n].promise == Some(o)
            && IntId(n) !in c'.pending
  {
    assert c.pending[IntId(n)] == n;
  }

  /** A drain finishes every request registered before it and empties the
      table; requests not yet registered are untouched. */
  lemma DrainFinishesAll(c: Client, reason: string)
    requires Correlated(c)
    ensures var c' := RunTask(c, DrainTask(reason));
            && c'.pending == map[] && !c'.connected
            && (forall n :: n in c.requests && c.requests[n].phase == Registered ==> c'.requests[n].state != Waiting)
            && (forall n :: n in c.requests && c.requests[n].phase == Registered && c.requests[n].state == Waiting
                  ==> c'.requests[n].outcome == Some(Failure(reason)))
            && (forall n :: n in c.requests && (c.requests[n].phase != Registered || c.requests[n].state != Waiting)
                  ==> c'.requests[n] == c.requests[n])
  {
    forall n | n in c.requests && c.requests[n].phase == Registered && c.requests[n].state == Waiting
      ensures n in c.pending.Values
    {
      assert c.pending[IntId(n)] == n;
    }
  }

  // ---------------------------------------------------- stability of state()

  ghost predicate NoStale(c: Client) {
    Closed(c) && forall k :: k in c.pending ==> c.requests[c.pending[k]].state == Waiting
  }

  /** A finished request stays in the table if and only if it was finished
      through its string token: complete_pending erases the key it was given and
      the token, never the integer id. */
  lemma StaleExact(c: Client, key: RequestId, o: Outcome)
    requires Correlated(c) && TokensOk(c) && NoStale(c) && key in c.pending
    ensures NoStale(FinishKey(c, key, o)) <==> key.IntId?
  {
    var n := c.pending[key];
    var c' := FinishKey(c, key, o);
    if key.StrId? {
      assert c.pending[IntId(n)] == n && IntId(n) in c'.pending;
    } else {
      forall k | k in c'.pending ensures c'.requests[c'.pending[k]].state == Waiting {
        if k.IntId? {
          assert c.pending[k] == k.num;
        }
      }
    }
  }

  predicate ReplyOutside(m: Inbound, tokens: set<string>) {
    (m.SuccessReply? || m.ErrorReply?) && m.id.StrId? ==> m.id.str !in tokens
  }

  predicate Quiet(es: seq<Step>, tokens: set<string>) {
    forall i :: 0 <= i < |es| && es[i].Deliver? ==> ReplyOutside(es[i].message, tokens)
  }

  predicate TokensIn(c: Client, tokens: set<string>) {
    forall n :: n in c.requests && c.requests[n].token.StrId? ==> c.requests[n].token.str in tokens
  }

  /** Each state() is the one of the outcome. */
  ghost predicate AllAgree(c: Client) {
    forall n :: n in c.requests && c.requests[n].state != Waiting ==>
      c.requests[n].outcome.Some? && Agrees(c.requests[n].state, c.requests[n].outcome.value)
  }

  ghost predicate QuietState(c: Client, tokens: set<string>) {
    && NoStale(c)
    && (forall i :: 0 <= i < |c.strand| && c.strand[i].InboundTask? ==> ReplyOutside(c.strand[i].message, tokens))
    && (c.running.Some? ==> c.running.value.key.IntId?)
  }

  ghost predicate StatesKept(c: Client, c': Client) {
    forall n :: n in c.requests && c.requests[n].state != Waiting ==>
      n in c'.requests && c'.requests[n].state == c.requests[n].state
  }

  /** Terminal states stay, and states that agree with their outcomes go on to. */
  ghost predicate Steady(c: Client, c': Client) {
    StatesKept(c, c') && (AllAgree(c) ==> AllAgree(c'))
  }

  lemma FinishKeyQuiet(c: Client, key: RequestId, o: Outcome)
    requires Correlated(c) && TokensOk(c) && NoStale(c) && key in c.pending && key.IntId?
    ensures NoStale(FinishKey(c, key, o)) && Steady(c, FinishKey(c, key, o))
  {
    StaleExact(c, key, o);
    var n := c.pending[key];
    assert c.requests[n].state == Waiting;
  }

  lemma CompleteQuiet(c: Client, key: RequestId, o: Outcome)
    requires Correlated(c) && TokensOk(c) && NoStale(c) && c.running.None?
    requires key in c.pending ==> key.IntId?
    ensures QuietAfter(c, CompletePending(c, key, o))
  {
    if key in c.pending {
      FinishKeyQuiet(c, key, o);
      FinishKeyQuiet(c, key, UNSUPPORTED);
    }
  }

  lemma OutsideNotPending(c: Client, id: RequestId, tokens: set<string>)
    requires Correlated(c) && TokensIn(c, tokens)
    requires id.StrId? ==> id.str !in tokens
    ensures id in c.pending ==> id.IntId?
  {
    forall t | StrId(t) in c.pending ensures t in tokens {
      var n := c.pending[StrId(t)];
      assert c.requests[n].token == StrId(t);
    }
  }

  /** What a quiet task leaves behind. */
  ghost predicate QuietAfter(c: Client, c': Client) {
    NoStale(c') && Steady(c, c') && (c'.running.Some? ==> c'.running.value.key.IntId?)
  }

  lemma MessageQuiet(c: Client, m: Inbound, tokens: set<string>)
    requires Correlated(c) && TokensOk(c) && NoStale(c) && c.running.None? && TokensIn(c, tokens)
    requires ReplyOutside(m, tokens)
    ensures QuietAfter(c, OnMessage(c, m))
  {
    if m.SuccessReply? {
      OutsideNotPending(c, m.id, tokens);
      CompleteQuiet(c, m.id, Success(m.result));
    } else if m.ErrorReply? {
      OutsideNotPending(c, m.id, tokens);
      CompleteQuiet(c, m.id, RpcError(m.code, m.message));
    }
  }

  lemma CancelQuiet(c: Client, n: int, reason: string)
    requires Correlated(c) && TokensOk(c) && NoStale(c) && c.running.None?
    ensures QuietAfter(c, CancelPending(c, n, reason))
  {
    var noted := c.(wire := c.wire + [SentCancelled(n, reason)]);
    CompleteQuiet(noted, IntId(n), Cancel(if reason == "" then "cancelled by client" else reason));
  }

  lemma DrainQuiet(c: Client, reason: string)
    requires Closed(c) && c.running.None?
    ensures QuietAfter(c, FailAll(c, reason))
  {
  }

  lemma RunTaskQuiet(c: Client, t: Task, tokens: set<string>)
    requires Correlated(c) && TokensOk(c) && NoStale(c) && c.running.None? && TokensIn(c, tokens)
    requires t.InboundTask? ==> ReplyOutside(t.message, tokens)
    requires t.RegisterTask? && t.n in c.requests ==> c.requests[t.n].state == Waiting
    ensures QuietAfter(c, RunTask(c, t))
  {
    match t
    case RegisterTask(n) =>
    case InboundTask(m) => MessageQuiet(c, m, tokens);
    case TimerTask(n) => CompleteQuiet(c, IntId(n), Timeout);
    case CancelTask(n, reason) => CancelQuiet(c, n, reason);
    case DrainTask(reason) => DrainQuiet(c.(connected := false), reason);
  }

  lemma StrandQuiet(c: Client, tokens: set<string>)
    requires Sound(c) && QuietState(c, tokens) && TokensIn(c, tokens)
    ensures QuietState(StrandAdvance(c), tokens) && Steady(c, StrandAdvance(c))
  {
    if c.running.Some? {
      var k := c.running.value;
      FinishKeyQuiet(c.(running := None, wire := c.wire + [SentInitialized]), k.key, k.outcome);
    } else if c.strand != [] {
      var popped := c.(strand := c.strand[1..]);
      assert Correlated(popped) && TokensOk(popped) && TokensIn(popped, tokens);
      RunTaskQuiet(popped, c.strand[0], tokens);
      assert RunTask(popped, c.strand[0]).strand == popped.strand;
    }
  }

  lemma SignalQuiet(c: Client, e: Step, tokens: set<string>)
    requires QuietState(c, tokens)
    requires e.Deliver? ==> ReplyOutside(e.message, tokens)
    ensures QuietState(Signal(c, e), tokens)
  {
  }

  lemma AllocateQuiet(c: Client, i: nat, tokens: set<string>)
    requires Closed(c) && Numbered(c) && QuietState(c, tokens)
    ensures QuietState(AllocateRequest(c, i), tokens) && Steady(c, AllocateRequest(c, i))
  {
    assert forall k :: k in c.pending ==> c.pending[k] < c.nextId;
  }

  lemma PostQuiet(c: Client, n: int, tokens: set<string>)
    requires Closed(c) && QuietState(c, tokens)
    ensures QuietState(PostRequest(c, n), tokens) && Steady(c, PostRequest(c, n))
  {
  }

  lemma StepQuiet(c: Client, e: Step, tokens: set<string>)
    requires Sound(c) && QuietState(c, tokens) && TokensIn(c, tokens)
    requires e.Deliver? ==> ReplyOutside(e.message, tokens)
    ensures QuietState(Apply(c, e), tokens) && Steady(c, Apply(c, e))
  {
    match e
    case StrandStep => StrandQuiet(c, tokens);
    case Allocate(i) => AllocateQuiet(c, i, tokens);
    case Post(n) => PostQuiet(c, n, tokens);
    case _ => SignalQuiet(c, e, tokens);
  }

  lemma {:induction false} RunQuiet(c: Client, es: seq<Step>, tokens: set<string>)
    requires Sound(c) && AllExactlyOnce(c.requests) && QuietState(c, tokens)
    requires TokensOk(Run(c, es)) && TokensIn(Run(c, es), tokens) && Quiet(es, tokens)
    ensures Sound(Run(c, es)) && QuietState(Run(c, es), tokens) && Steady(c, Run(c, es))
    decreases |es|
  {
    RunOutcomes(c, es);
    assert TokensIn(c, tokens) by {
      forall n | n in c.requests ensures c.requests[n].token == Run(c, es).requests[n].token {
        assert Evolves(c.requests[n], Run(c, es).requests[n]);
      }
    }
    if es != [] {
      var c' := Apply(c, es[0]);
      StepOutcomes(c, es[0]);
      assert TokensOk(c') by { TokensBack(c', es[1..]); }
      StepSound(c, es[0]);
      StepQuiet(c, es[0], tokens);
      RunQuiet(c', es[1..], tokens);
    }
  }

  lemma TokensBack(c: Client, es: seq<Step>)
    requires Closed(c) && AllExactlyOnce(c.requests) && Numbered(c) && TokensOk(Run(c, es))
    ensures TokensOk(c)
  {
    RunOutcomes(c, es);
    forall n | n in c.requests ensures TokenOk(c.requests[n], n) {
      assert Evolves(c.requests[n], Run(c, es).requests[n]);
    }
  }

  /** If no reply uses a progress token as its id, a terminal state() never
      changes again. */
  lemma StableStates(es: seq<Step>, fs: seq<Step>, tokens: set<string>)
    requires TokensOk(Run(START, es + fs)) && TokensIn(Run(START, es + fs), tokens)
    requires Quiet(es + fs, tokens)
    ensures StatesKept(Run(START, es), Run(START, es + fs))
    ensures AllAgree(Run(START, es + fs))
  {
    RunConcat(START, es, fs);
    var mid := Run(START, es);
    RunOutcomes(START, es);
    RunOutcomes(mid, fs);
    TokensBack(mid, fs);
    forall n | n in mid.requests ensures mid.requests[n].token == Run(mid, fs).requests[n].token {
      assert Evolves(mid.requests[n], Run(mid, fs).requests[n]);
    }
    assert forall i :: 0 <= i < |es| ==> es[i] == (es + fs)[i];
    assert forall i :: 0 <= i < |fs| ==> fs[i] == (es + fs)[|es| + i];
    RunQuiet(START, es, tokens);
    RunQuiet(mid, fs, tokens);
  }

  /** Some continuation in which no reply uses a token changes a terminal state. */
  ghost predicate CanChange(c: Client)
    requires Closed(c)
  {
    exists fs: seq<Step>, tokens: set<string> ::
      && TokensOk(Run(c, fs)) && TokensIn(Run(c, fs), tokens) && Quiet(fs, tokens)
      && !StatesKept(c, Run(c, fs))
  }

  /** A reply to a stale key that brings another terminal state than the present one. */
  function ChangingReply(r: Request, key: RequestId): Inbound {
    if r.state == Errored then SuccessReply(key, Payload("ok", Some(VERSION_2025_06_18), true))
    else ErrorReply(key, 0, "")
  }

  lemma ReplyTwoTurns(c: Client, key: RequestId, m: Inbound, o: Outcome)
    requires Closed(c) && c.strand == [] && c.running.None? && key in c.pending
    requires m == SuccessReply(key, Payload("ok", Some(VERSION_2025_06_18), true)) || m == ErrorReply(key, 0, "")
    requires o == if m.SuccessReply? then Success(m.result) else RpcError(m.code, m.message)
    ensures var n := c.pending[key];
            Run(c, [Deliver(m), StrandStep, StrandStep]).requests == c.requests[n := Finish(c.requests[n], o)]
  {
    var fs := [Deliver(m), StrandStep, StrandStep];
    var c1 := Apply(c, Deliver(m));
    assert c1.strand == [InboundTask(m)] && c1.strand[1..] == [];
    var c2 := Apply(c1, StrandStep);
    assert c2 == CompletePending(c1.(strand := []), key, o);
    var c3 := Apply(c2, StrandStep);
    assert fs[1..] == [StrandStep, StrandStep];
    assert [StrandStep, StrandStep][1..] == [StrandStep] && [StrandStep][1..] == [];
    assert Run(c, fs) == Run(c1, [StrandStep, StrandStep]) == Run(c2, [StrandStep]) == Run(c3, []);
  }

  lemma StaleChanges(c: Client)
    requires Sound(c) && c.strand == [] && c.running.None? && !NoStale(c)
    ensures CanChange(c)
  {
    var key :| key in c.pending && c.requests[c.pending[key]].state != Waiting;
    assert key.IntId?;
    var n := c.pending[key];
    var m := ChangingReply(c.requests[n], key);
    var o := if m.SuccessReply? then Success(m.result) else RpcError(m.code, m.message);
    var fs := [Deliver(m), StrandStep, StrandStep];
    ReplyTwoTurns(c, key, m, o);
    var tokens := set i | i in c.requests && c.requests[i].token.StrId? :: c.requests[i].token.str;
    assert TokensOk(Run(c, fs)) && TokensIn(Run(c, fs), tokens) && Quiet(fs, tokens);
    assert Run(c, fs).requests[n].state == o.Terminal() != c.requests[n].state;
  }

  /** Between messages, a terminal state() can still change through replies that
      use no token if and only if a finished request is still in the table. */
  lemma UnstableExact(c: Client)
    requires Sound(c) && AllExactlyOnce(c.requests) && c.strand == [] && c.running.None?
    ensures CanChange(c) <==> !NoStale(c)
  {
    if NoStale(c) {
      forall fs: seq<Step>, tokens: set<string> |
        TokensOk(Run(c, fs)) && TokensIn(Run(c, fs), tokens) && Quiet(fs, tokens)
        ensures StatesKept(c, Run(c, fs))
      {
        RunQuiet(c, fs, tokens);
      }
    } else {
      StaleChanges(c);
    }
  }

  lemma RunLast(c: Client, es: seq<Step>, e: Step)
    requires Closed(c)
    ensures Run(c, es + [e]) == Apply(Run(c, es), e)
  {
    RunConcat(c, es, [e]);
    assert [e][1..] == [];
    assert Run(Run(c, es), [e]) == Run(Apply(Run(c, es), e), []);
  }

  const HELLO := Submission(METHOD_INITIALIZE, Some(StrId("t")), true, true, true, false)
  const WELCOME := Payload("ok", Some(VERSION_2025_06_18), true)
  const REGISTERED_HELLO := Client(
    2, false, false, false, None, [],
    map[1 := NewRequest(HELLO, 1).(phase := Registered)],
    map[IntId(1) := 1, StrId("t") := 1], [], None, [SentRequest(1, METHOD_INITIALIZE, Some(StrId("t")))])

  lemma ReachRegistered() returns (es: seq<Step>)
    ensures Run(START, es) == REGISTERED_HELLO
  {
    es := [];
    RunLast(START, es, Admit(HELLO));
    es := es + [Admit(HELLO)];
    RunLast(START, es, Allocate(0));
    es := es + [Allocate(0)];
    RunLast(START, es, Post(1));
    es := es + [Post(1)];
    RunLast(START, es, StrandStep);
    es := es + [StrandStep];
    assert Run(START, es).pending == REGISTERED_HELLO.pending;
    assert Run(START, es).requests == REGISTERED_HELLO.requests;
  }

  const REFUSED := RpcError(0, "no")
  const ERRORED_HELLO := REGISTERED_HELLO.(
    requests := map[1 := Finish(REGISTERED_HELLO.requests[1], REFUSED)],
    pending := map[IntId(1) := 1])

  lemma ReachErrored() returns (es: seq<Step>)
    ensures Run(START, es) == ERRORED_HELLO
  {
    es := ReachRegistered();
    RunLast(START, es, Deliver(ErrorReply(StrId("t"), 0, "no")));
    es := es + [Deliver(ErrorReply(StrId("t"), 0, "no"))];
    RunLast(START, es, StrandStep);
    es := es + [StrandStep];
    assert Run(START, es).pending == ERRORED_HELLO.pending;
    assert Run(START, es).requests == ERRORED_HELLO.requests;
  }

  const REPLY_BY_ID := Deliver(SuccessReply(IntId(1), WELCOME))

  lemma OverwriteSteps() returns (c: Client)
    ensures Closed(ERRORED_HELLO)
    ensures c == Apply(Apply(Apply(ERRORED_HELLO, REPLY_BY_ID), StrandStep), StrandStep)
    ensures c.requests == map[1 := ERRORED_HELLO.requests[1].(state := Succeeded)]
  {
    var delivered := Apply(ERRORED_HELLO, REPLY_BY_ID);
    assert delivered.strand == [InboundTask(REPLY_BY_ID.message)];
    var stored := Apply(delivered, StrandStep);
    assert stored.running == Some(FinishInitialize(IntId(1), 1, Success(WELCOME)));
    c := Apply(stored, StrandStep);
    assert c.requests[1] == Finish(ERRORED_HELLO.requests[1], Success(WELCOME));
  }

  /** The condition of StableStates is needed: a peer that answers the token of
      an initialize and then its id turns state() from Errored to Succeeded,
      while promise, outcome and callbacks keep the error. */
  lemma StateCanBeOverwritten() returns (es: seq<Step>, fs: seq<Step>)
    ensures var before, after := Run(START, es), Run(START, es + fs);
            && TokensOk(after) && 1 in before.requests && 1 in after.requests
            && before.requests[1].state == Errored && after.requests[1].state == Succeeded
            && after.requests[1].outcome == before.requests[1].outcome == Some(REFUSED)
            && after.requests[1].log == before.requests[1].log
  {
    es := ReachErrored();
    RunLast(START, es, REPLY_BY_ID);
    RunLast(START, es + [REPLY_BY_ID], StrandStep);
    RunLast(START, es + [REPLY_BY_ID] + [StrandStep], StrandStep);
    fs := [REPLY_BY_ID, StrandStep, StrandStep];
    assert es + fs == es + [REPLY_BY_ID] + [StrandStep] + [StrandStep];
    var c := OverwriteSteps();
  }
}
