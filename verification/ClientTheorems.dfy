/** What every run of the client keeps, whatever the peer and the threads do. */
module ClientTheorems {
  import opened Wrappers
  import opened RequestIds
  import opened PendingRequests
  import opened ClientModel

  // ---------------------------------------------------------------- outcomes

  ghost predicate AllExactlyOnce(requests: map<int, Request>) {
    forall n :: n in requests ==> ExactlyOnce(requests[n])
  }

  ghost predicate AllEvolve(before: map<int, Request>, after: map<int, Request>) {
    forall n :: n in before ==> n in after && Evolves(before[n], after[n])
  }

  /** One moment of a run seen from a later one. */
  ghost predicate Forward(c: Client, c': Client) {
    AllExactlyOnce(c'.requests) && AllEvolve(c.requests, c'.requests)
  }

  ghost predicate Numbered(c: Client) {
    forall n :: n in c.requests ==> n < c.nextId
  }

  lemma FinishKeyOutcomes(c: Client, key: RequestId, o: Outcome)
    requires key in c.pending && c.pending[key] in c.requests
    requires AllExactlyOnce(c.requests)
    ensures Forward(c, FinishKey(c, key, o))
  {
    var n := c.pending[key];
    assert ExactlyOnce(c.requests[n]);
    FinishExactlyOnce(c.requests[n], o);
  }

  lemma FailAllOutcomes(c: Client, reason: string)
    requires Closed(c) && AllExactlyOnce(c.requests)
    ensures Forward(c, FailAll(c, reason))
  {
    forall n | n in c.requests
      ensures ExactlyOnce(FailAll(c, reason).requests[n])
      ensures Evolves(c.requests[n], FailAll(c, reason).requests[n])
    {
      FinishExactlyOnce(c.requests[n], Failure(reason));
    }
  }

  lemma CompleteOutcomes(c: Client, key: RequestId, o: Outcome)
    requires Closed(c) && AllExactlyOnce(c.requests)
    ensures Forward(c, CompletePending(c, key, o))
  {
    if key in c.pending {
      FinishKeyOutcomes(c, key, o);
      FinishKeyOutcomes(c, key, UNSUPPORTED);
    }
  }

  lemma CancelOutcomes(c: Client, n: int, reason: string)
    requires Closed(c) && AllExactlyOnce(c.requests)
    ensures Forward(c, CancelPending(c, n, reason))
  {
    var noted := c.(wire := c.wire + [SentCancelled(n, reason)]);
    CompleteOutcomes(noted, IntId(n), Cancel(if reason == "" then "cancelled by client" else reason));
  }

  lemma MessageOutcomes(c: Client, m: Inbound)
    requires Closed(c) && AllExactlyOnce(c.requests)
    ensures Forward(c, OnMessage(c, m))
  {
    match m
    case SuccessReply(id, result) => CompleteOutcomes(c, id, Success(result));
    case ErrorReply(id, code, message) => CompleteOutcomes(c, id, RpcError(code, message));
    case Progress(token, progress, total) =>
      if token in c.pending {
        var n := c.pending[token];
        assert ExactlyOnce(c.requests[n]);
        ProgressExactlyOnce(c.requests[n], progress, total);
      }
    case Other =>
  }

  lemma RegisterOutcomes(c: Client, n: int)
    requires AllExactlyOnce(c.requests) && n in c.requests
    ensures Forward(c, RegisterPending(c, n))
  {
  }

  lemma RunTaskOutcomes(c: Client, t: Task)
    requires Closed(c) && AllExactlyOnce(c.requests)
    ensures Forward(c, RunTask(c, t))
  {
    match t
    case RegisterTask(n) => if n in c.requests { RegisterOutcomes(c, n); }
    case InboundTask(m) => MessageOutcomes(c, m);
    case TimerTask(n) => CompleteOutcomes(c, IntId(n), Timeout);
    case CancelTask(n, reason) => CancelOutcomes(c, n, reason);
    case DrainTask(reason) => FailAllOutcomes(c.(connected := false), reason);
  }

  lemma StrandOutcomes(c: Client)
    requires Closed(c) && AllExactlyOnce(c.requests)
    ensures Forward(c, StrandAdvance(c))
  {
    if c.running.Some? {
      var k := c.running.value;
      if k.key in c.pending {
        FinishKeyOutcomes(c.(running := None, wire := c.wire + [SentInitialized]), k.key, k.outcome);
      }
    } else if c.strand != [] {
      RunTaskOutcomes(c.(strand := c.strand[1..]), c.strand[0]);
    }
  }

  lemma AllocateOutcomes(c: Client, i: nat)
    requires Closed(c) && AllExactlyOnce(c.requests) && Numbered(c)
    ensures Forward(c, AllocateRequest(c, i)) && Numbered(AllocateRequest(c, i))
  {
  }

  lemma PostOutcomes(c: Client, n: int)
    requires Closed(c) && AllExactlyOnce(c.requests) && Numbered(c)
    ensures Forward(c, PostRequest(c, n)) && Numbered(PostRequest(c, n))
  {
    if n in c.requests && c.requests[n].phase == Created {
      PhaseMoves(c.requests[n], Posted);
      OneForward(c, PostRequest(c, n), n, c.requests[n].(phase := Posted));
    }
  }

  lemma PhaseMoves(r: Request, phase: Phase)
    requires ExactlyOnce(r) && r.phase != Registered
    ensures ExactlyOnce(r.(phase := phase)) && Evolves(r, r.(phase := phase))
  {
  }

  /** One request moves on and the others stay. */
  lemma OneForward(c: Client, c': Client, n: int, r: Request)
    requires AllExactlyOnce(c.requests) && n in c.requests && c'.requests == c.requests[n := r]
    requires ExactlyOnce(r) && Evolves(c.requests[n], r)
    ensures Forward(c, c')
  {
    forall m | m in c.requests ensures Evolves(c.requests[m], c'.requests[m]) {
      assert ExactlyOnce(c.requests[m]);
    }
  }

  lemma StepOutcomes(c: Client, e: Step)
    requires Closed(c) && AllExactlyOnce(c.requests) && Numbered(c)
    ensures Forward(c, Apply(c, e)) && Numbered(Apply(c, e))
  {
    match e
    case StrandStep => StrandOutcomes(c);
    case Allocate(i) => AllocateOutcomes(c, i);
    case Post(n) => PostOutcomes(c, n);
    case _ =>
  }

  /** Exactly-once over any stretch of any run: the log of each request only
      grows, and from the first finish on its promise, its callbacks and its
      outcome are frozen. */
  lemma {:induction false} RunOutcomes(c: Client, es: seq<Step>)
    requires Closed(c) && AllExactlyOnce(c.requests) && Numbered(c)
    ensures Forward(c, Run(c, es)) && Numbered(Run(c, es))
    decreases |es|
  {
    if es != [] {
      StepOutcomes(c, es[0]);
      RunOutcomes(Apply(c, es[0]), es[1..]);
    }
  }

  lemma {:induction false} RunConcat(c: Client, es: seq<Step>, fs: seq<Step>)
    requires Closed(c)
    ensures Run(c, es + fs) == Run(Run(c, es), fs)
    decreases |es|
  {
    if es == [] {
      assert es + fs == fs;
    } else {
      assert (es + fs)[1..] == es[1..] + fs;
      RunConcat(Apply(c, es[0]), es[1..], fs);
    }
  }

  lemma ExactlyOnceOutcome(es: seq<Step>, fs: seq<Step>)
    ensures AllExactlyOnce(Run(START, es).requests)
    ensures AllEvolve(Run(START, es).requests, Run(START, es + fs).requests)
  {
    RunOutcomes(START, es);
    RunOutcomes(Run(START, es), fs);
    RunConcat(START, es, fs);
  }

  /** From submission to callback, over every run: once the request made of a
      submission has finished, the last thing logged is the one callback of that
      submission which fits the outcome, or none where it gave none. */
  lemma CallbackOfSubmission(es: seq<Step>, i: nat, fs: seq<Step>)
    requires i < |Run(START, es).admitted|
    ensures var c, s := Run(START, es), Run(START, es).admitted[i];
            var n, c' := c.nextId, Run(AllocateRequest(c, i), fs);
            && n in c'.requests && c'.requests[n].verb == s.verb
            && c'.requests[n].timed == s.timed && c'.requests[n].hasProgress == s.hasProgress
            && var r := c'.requests[n];
               r.state != Waiting ==>
                 && r.outcome.Some? && r.log != []
                 && var last := r.log[|r.log| - 1];
                    && last.Dispatched? && last.outcome == r.outcome.value
                    && (last.slot == OnComplete <==> r.outcome.value.Success? && s.hasComplete)
                    && (last.slot == OnError <==> !r.outcome.value.Success? && s.hasError)
  {
    var c := Run(START, es);
    RunOutcomes(START, es);
    AllocateOutcomes(c, i);
    var a := AllocateRequest(c, i);
    RunOutcomes(a, fs);
    assert Evolves(a.requests[c.nextId], Run(a, fs).requests[c.nextId]);
    assert ExactlyOnce(Run(a, fs).requests[c.nextId]);
  }

  // ------------------------------------------------------------- correlation

  /** A progress token that cannot collide with another request's id. */
  predicate TokenOk(r: Request, n: int) {
    r.token.IntId? ==> r.token == IntId(n)
  }

  predicate TokensOk(c: Client) {
    forall n :: n in c.requests ==> TokenOk(c.requests[n], n)
  }

  /** The table: integer keys name their own request, string keys a Waiting
      request holding that token, null is no key, and no registered Waiting
      request is missing from it. */
  ghost predicate Correlated(c: Client) {
    && Closed(c)
    && NullId !in c.pending
    && (forall k :: IntId(k) in c.pending ==> c.pending[IntId(k)] == k)
    && (forall t :: StrId(t) in c.pending ==>
          c.requests[c.pending[StrId(t)]].token == StrId(t)
          && c.requests[c.pending[StrId(t)]].state == Waiting)
    && (forall k :: k in c.pending ==> c.requests[c.pending[k]].phase == Registered)
    && (forall n :: n in c.requests && c.requests[n].phase == Registered && c.requests[n].state == Waiting
          ==> IntId(n) in c.pending)
  }

  ghost predicate ContinuationOk(c: Client) {
    c.running.Some? ==>
      && c.running.value.key in c.pending
      && c.pending[c.running.value.key] == c.running.value.n
  }

  lemma RegisterCorrelated(c: Client, n: int)
    requires Correlated(c) && n in c.requests && TokenOk(c.requests[n], n)
    requires c.requests[n].state == Waiting
    ensures Correlated(RegisterPending(c, n))
  {
  }

  /** The exact guard: registering keeps the table correlated if and only if
      the token is null, a string, or the request's own id. A numeric custom
      token without on_progress passes through submit_request and breaks it. */
  lemma RegisterExact(c: Client, n: int)
    requires Correlated(c) && n in c.requests && c.requests[n].state == Waiting
    ensures Correlated(RegisterPending(c, n)) <==> TokenOk(c.requests[n], n)
  {
    var c' := RegisterPending(c, n);
    if TokenOk(c.requests[n], n) {
      RegisterCorrelated(c, n);
    } else {
      var k := c.requests[n].token.num;
      assert IntId(k) in c'.pending && c'.pending[IntId(k)] == n;
    }
  }

  lemma SubmissionGuard(s: Submission, n: int)
    ensures TokenOk(NewRequest(s, n), n) <==>
            (s.hasProgress || s.customToken.None? || !s.customToken.value.IntId? || s.customToken.value.num == n)
  {
  }

  lemma FinishKeyCorrelated(c: Client, key: RequestId, o: Outcome)
    requires Correlated(c) && TokensOk(c) && key in c.pending
    ensures Correlated(FinishKey(c, key, o)) && TokensOk(FinishKey(c, key, o))
    ensures var n := c.pending[key];
            && FinishKey(c, key, o).requests == c.requests[n := Finish(c.requests[n], o)]
            && (key.IntId? ==> n == key.num)
            && (key.StrId? ==> c.requests[n].token == key)
  {
    var c' := FinishKey(c, key, o);
    var n := c.pending[key];
    forall t | StrId(t) in c'.pending
      ensures c'.requests[c'.pending[StrId(t)]].token == StrId(t)
      ensures c'.requests[c'.pending[StrId(t)]].state == Waiting
    {
      assert StrId(t) in c.pending;
    }
  }

  lemma CompleteCorrelated(c: Client, key: RequestId, o: Outcome)
    requires Correlated(c) && TokensOk(c) && c.running.None?
    ensures Correlated(CompletePending(c, key, o)) && TokensOk(CompletePending(c, key, o))
    ensures ContinuationOk(CompletePending(c, key, o))
  {
    if key in c.pending {
      FinishKeyCorrelated(c, key, o);
      FinishKeyCorrelated(c, key, UNSUPPORTED);
    }
  }

  lemma CancelCorrelated(c: Client, n: int, reason: string)
    requires Correlated(c) && TokensOk(c) && c.running.None?
    ensures Correlated(CancelPending(c, n, reason)) && TokensOk(CancelPending(c, n, reason))
    ensures ContinuationOk(CancelPending(c, n, reason))
  {
    var noted := c.(wire := c.wire + [SentCancelled(n, reason)]);
    CompleteCorrelated(noted, IntId(n), Cancel(if reason == "" then "cancelled by client" else reason));
  }

  lemma RunTaskCorrelated(c: Client, t: Task)
    requires Correlated(c) && TokensOk(c) && c.running.None?
    requires t.RegisterTask? && t.n in c.requests ==> c.requests[t.n].state == Waiting
    ensures Correlated(RunTask(c, t)) && TokensOk(RunTask(c, t)) && ContinuationOk(RunTask(c, t))
  {
    match t
    case RegisterTask(n) => if n in c.requests { RegisterCorrelated(c, n); }
    case InboundTask(m) =>
      match m {
        case SuccessReply(id, result) => CompleteCorrelated(c, id, Success(result));
        case ErrorReply(id, code, message) => CompleteCorrelated(c, id, RpcError(code, message));
        case Progress(token, progress, total) =>
        case Other =>
      }
    case TimerTask(n) => CompleteCorrelated(c, IntId(n), Timeout);
    case CancelTask(n, reason) => CancelCorrelated(c, n, reason);
    case DrainTask(reason) => FailAllCorrelated(c.(connected := false), reason);
  }

  lemma FailAllCorrelated(c: Client, reason: string)
    requires Correlated(c) && TokensOk(c)
    ensures Correlated(FailAll(c, reason)) && TokensOk(FailAll(c, reason))
  {
    forall n | n in c.requests && c.requests[n].phase == Registered && c.requests[n].state == Waiting
      ensures n in c.pending.Values
    {
      assert c.pending[IntId(n)] == n;
    }
  }

  /** Registration tasks name distinct requests that still await them, and a
      request nobody registered yet is Waiting. */
  ghost predicate StrandOk(c: Client) {
    && (forall i :: 0 <= i < |c.strand| && c.strand[i].RegisterTask? ==>
          c.strand[i].n in c.requests && c.requests[c.strand[i].n].phase == Posted)
    && (forall i, j :: 0 <= i < j < |c.strand| && c.strand[i].RegisterTask? && c.strand[j].RegisterTask?
          ==> c.strand[i].n != c.strand[j].n)
    && (forall n :: n in c.requests && c.requests[n].phase != Registered ==> c.requests[n].state == Waiting)
  }

  ghost predicate Sound(c: Client) {
    && Closed(c) && Numbered(c)
    && Correlated(c) && TokensOk(c) && ContinuationOk(c)
    && StrandOk(c)
  }

  /** Finishing and draining touch registered requests only. */
  ghost predicate PhasesKept(c: Client, c': Client) {
    && SameFrame(c, c')
    && (forall n :: n in c.requests ==> c'.requests[n].phase == c.requests[n].phase)
    && (forall n :: n in c.requests && c.requests[n].phase != Registered ==> c'.requests[n] == c.requests[n])
  }

  lemma FinishKeyPhases(c: Client, key: RequestId, o: Outcome)
    requires Correlated(c) && key in c.pending
    ensures PhasesKept(c, FinishKey(c, key, o))
  {
    var n := c.pending[key];
    assert c.requests[n].phase == Registered;
  }

  lemma CompletePhases(c: Client, key: RequestId, o: Outcome)
    requires Correlated(c)
    ensures PhasesKept(c, CompletePending(c, key, o))
  {
    if key in c.pending {
      FinishKeyPhases(c, key, o);
      FinishKeyPhases(c, key, UNSUPPORTED);
    }
  }

  lemma RunTaskPhases(c: Client, t: Task)
    requires Correlated(c) && !t.RegisterTask?
    ensures PhasesKept(c, RunTask(c, t))
  {
    match t
    case InboundTask(m) =>
      if m.SuccessReply? {
        CompletePhases(c, m.id, Success(m.result));
      } else if m.ErrorReply? {
        CompletePhases(c, m.id, RpcError(m.code, m.message));
      }
    case TimerTask(n) => CompletePhases(c, IntId(n), Timeout);
    case CancelTask(n, reason) =>
      CompletePhases(c.(wire := c.wire + [SentCancelled(n, reason)]), IntId(n),
                     Cancel(if reason == "" then "cancelled by client" else reason));
    case DrainTask(reason) =>
  }

  lemma PopStrandOk(c: Client)
    requires StrandOk(c) && c.strand != []
    ensures StrandOk(c.(strand := c.strand[1..]))
    ensures c.strand[0].RegisterTask? ==>
              forall i :: 0 <= i < |c.strand[1..]| && c.strand[1..][i].RegisterTask?
                ==> c.strand[1..][i].n != c.strand[0].n
  {
  }

  lemma RunTaskStrandOk(c: Client, t: Task)
    requires Correlated(c) && StrandOk(c)
    requires t.RegisterTask? ==>
               forall i :: 0 <= i < |c.strand| && c.strand[i].RegisterTask? ==> c.strand[i].n != t.n
    ensures StrandOk(RunTask(c, t))
  {
    if !t.RegisterTask? {
      RunTaskPhases(c, t);
    }
  }

  lemma PopSound(c: Client)
    requires Sound(c) && c.running.None? && c.strand != []
    ensures Sound(RunTask(c.(strand := c.strand[1..]), c.strand[0]))
  {
    var popped := c.(strand := c.strand[1..]);
    PopStrandOk(c);
    assert Correlated(popped) && TokensOk(popped);
    RunTaskCorrelated(popped, c.strand[0]);
    RunTaskStrandOk(popped, c.strand[0]);
  }

  lemma StrandSound(c: Client)
    requires Sound(c)
    ensures Sound(StrandAdvance(c))
  {
    if c.running.Some? {
      var k := c.running.value;
      var sent := c.(running := None, wire := c.wire + [SentInitialized]);
      FinishKeyCorrelated(sent, k.key, k.outcome);
    } else if c.strand != [] {
      PopSound(c);
    }
  }

  lemma StepSound(c: Client, e: Step)
    requires Sound(c) && TokensOk(Apply(c, e))
    ensures Sound(Apply(c, e))
  {
    match e
    case StrandStep => StrandSound(c);
    case Allocate(i) => AllocateSound(c, i);
    case Post(n) => PostSound(c, n);
    case _ => SignalSound(c, e);
  }

  lemma AllocateSound(c: Client, i: nat)
    requires Sound(c) && TokensOk(AllocateRequest(c, i))
    ensures Sound(AllocateRequest(c, i))
  {
  }

  lemma PostSound(c: Client, n: int)
    requires Sound(c)
    ensures Sound(PostRequest(c, n))
  {
  }

  lemma SignalSound(c: Client, e: Step)
    requires Sound(c)
    ensures Sound(Signal(c, e))
  {
  }

  /** Tokens never change, so a run whose last state has good tokens had good
      tokens throughout. */
  lemma {:induction false} RunSound(c: Client, es: seq<Step>)
    requires Sound(c) && AllExactlyOnce(c.requests) && TokensOk(Run(c, es))
    ensures Sound(Run(c, es))
    decreases |es|
  {
    if es != [] {
      var c' := Apply(c, es[0]);
      StepOutcomes(c, es[0]);
      RunOutcomes(c', es[1..]);
      assert TokensOk(c') by {
        forall n | n in c'.requests ensures TokenOk(c'.requests[n], n) {
          assert Evolves(c'.requests[n], Run(c', es[1..]).requests[n]);
        }
      }
      StepSound(c, es[0]);
      RunSound(c', es[1..]);
    }
  }

  /** No orphans and no crossed wires, on every run in which no request carries
      another request's number as its progress token. */
  lemma Correlation(es: seq<Step>)
    requires TokensOk(Run(START, es))
    ensures Correlated(Run(START, es))
  {
    RunSound(START, es);
  }
}
