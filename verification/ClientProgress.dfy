/**
 * Progress notifications reach the request whose token they carry
 * (src/client.cpp), from the token a submission asks for, over the token written
 * to the wire, to the callback.
 */
module ClientProgress {
  import opened Wrappers
  import opened RequestIds
  import opened PendingRequests
  import opened ClientModel
  import opened ClientTheorems

  /** Which token a submission gets: with a progress callback a custom string, the
      null it asked for, or the request's own id; without one, what it asked for. */
  lemma TokenExact(s: Submission, n: int)
    ensures var t := NewRequest(s, n).token;
            && (s.hasProgress ==> (t == IntId(n) <==> s.customToken.None? || s.customToken.value.IntId?))
            && (forall custom :: s.customToken == Some(StrId(custom)) ==> t == StrId(custom))
            && (s.customToken == Some(NullId) || (s.customToken.None? && !s.hasProgress) ==> t == NullId)
            && (!s.hasProgress && s.customToken.Some? ==> t == s.customToken.value)
  {
  }

  /** The entry for token k, if any, is n's, and n has it while it waits. */
  ghost predicate OwnKey(c: Client, n: int, k: RequestId) {
    && (k in c.pending ==> c.pending[k] == n)
    && (n in c.requests && c.requests[n].phase == Registered && c.requests[n].state == Waiting ==> k in c.pending)
  }

  /** k is n's token, and neither id nor token of any other request. */
  predicate OnlyHolder(c: Client, n: int, k: RequestId) {
    && k != NullId
    && (n in c.requests ==> c.requests[n].token == k)
    && (forall m :: m in c.requests && m != n ==> IntId(m) != k && c.requests[m].token != k)
  }

  lemma RegisterKey(c: Client, m: int, n: int, k: RequestId)
    requires OwnKey(c, n, k) && OnlyHolder(c, n, k) && m in c.requests
    ensures OwnKey(RegisterPending(c, m), n, k)
  {
  }

  lemma FinishKeyKey(c: Client, key: RequestId, o: Outcome, n: int, k: RequestId)
    requires Closed(c) && OwnKey(c, n, k) && OnlyHolder(c, n, k) && key in c.pending
    ensures OwnKey(FinishKey(c, key, o), n, k)
  {
    var m := c.pending[key];
    assert m in c.requests;
  }

  lemma CompleteKey(c: Client, key: RequestId, o: Outcome, n: int, k: RequestId)
    requires Closed(c) && OwnKey(c, n, k) && OnlyHolder(c, n, k)
    ensures OwnKey(CompletePending(c, key, o), n, k)
  {
    if key in c.pending {
      FinishKeyKey(c, key, o, n, k);
      FinishKeyKey(c, key, UNSUPPORTED, n, k);
    }
  }

  lemma FailAllKey(c: Client, reason: string, n: int, k: RequestId)
    requires Closed(c) && OwnKey(c, n, k)
    ensures OwnKey(FailAll(c, reason), n, k)
  {
    if n in c.requests && c.requests[n].phase == Registered && c.requests[n].state == Waiting {
      assert c.pending[k] == n && n in c.pending.Values;
    }
  }

  lemma MessageKey(c: Client, m: Inbound, n: int, k: RequestId)
    requires Closed(c) && OwnKey(c, n, k) && OnlyHolder(c, n, k)
    ensures OwnKey(OnMessage(c, m), n, k)
  {
    match m
    case SuccessReply(id, result) => CompleteKey(c, id, Success(result), n, k);
    case ErrorReply(id, code, message) => CompleteKey(c, id, RpcError(code, message), n, k);
    case Progress(token, progress, total) =>
    case Other =>
  }

  lemma RunTaskKey(c: Client, t: Task, n: int, k: RequestId)
    requires Closed(c) && OwnKey(c, n, k) && OnlyHolder(c, n, k)
    ensures OwnKey(RunTask(c, t), n, k)
  {
    match t
    case RegisterTask(m) => if m in c.requests { RegisterKey(c, m, n, k); }
    case InboundTask(m) => MessageKey(c, m, n, k);
    case TimerTask(m) => CompleteKey(c, IntId(m), Timeout, n, k);
    case CancelTask(m, reason) =>
      CompleteKey(c.(wire := c.wire + [SentCancelled(m, reason)]), IntId(m),
                  Cancel(if reason == "" then "cancelled by client" else reason), n, k);
    case DrainTask(reason) => FailAllKey(c.(connected := false), reason, n, k);
  }

  lemma StrandKey(c: Client, n: int, k: RequestId)
    requires Closed(c) && OwnKey(c, n, k) && OnlyHolder(c, n, k)
    ensures OwnKey(StrandAdvance(c), n, k)
  {
    if c.running.Some? {
      var sent := c.(running := None, wire := c.wire + [SentInitialized]);
      if c.running.value.key in c.pending { FinishKeyKey(sent, c.running.value.key, c.running.value.outcome, n, k); }
    } else if c.strand != [] {
      RunTaskKey(c.(strand := c.strand[1..]), c.strand[0], n, k);
    }
  }

  lemma AllocateKey(c: Client, i: nat, n: int, k: RequestId)
    requires Closed(c) && OwnKey(c, n, k)
    ensures OwnKey(AllocateRequest(c, i), n, k)
  {
  }

  lemma PostKey(c: Client, m: int, n: int, k: RequestId)
    requires Closed(c) && OwnKey(c, n, k)
    ensures OwnKey(PostRequest(c, m), n, k)
  {
  }

  lemma StepKey(c: Client, e: Step, n: int, k: RequestId)
    requires Closed(c) && OwnKey(c, n, k) && OnlyHolder(c, n, k)
    ensures OwnKey(Apply(c, e), n, k)
  {
    match e
    case StrandStep => StrandKey(c, n, k);
    case Allocate(i) => AllocateKey(c, i, n, k);
    case Post(m) => PostKey(c, m, n, k);
    case _ =>
  }

  lemma HolderBack(c: Client, es: seq<Step>, n: int, k: RequestId)
    requires Closed(c) && AllExactlyOnce(c.requests) && Numbered(c) && OnlyHolder(Run(c, es), n, k)
    ensures OnlyHolder(c, n, k)
  {
    RunOutcomes(c, es);
    forall m | m in c.requests ensures m in Run(c, es).requests && c.requests[m].token == Run(c, es).requests[m].token {
      assert Evolves(c.requests[m], Run(c, es).requests[m]);
    }
  }

  lemma {:induction false} RunKey(c: Client, es: seq<Step>, n: int, k: RequestId)
    requires Closed(c) && AllExactlyOnce(c.requests) && Numbered(c) && OwnKey(c, n, k) && OnlyHolder(Run(c, es), n, k)
    ensures OwnKey(Run(c, es), n, k)
    decreases |es|
  {
    if es != [] {
      HolderBack(c, es, n, k);
      StepOutcomes(c, es[0]);
      StepKey(c, es[0], n, k);
      RunKey(Apply(c, es[0]), es[1..], n, k);
    }
  }

  /** On every run: progress that carries the token of a registered waiting request
      with a callback, a token nobody else uses, reaches that callback, with its
      numbers, and changes nothing else. */
  lemma ProgressArrives(es: seq<Step>, n: int, progress: real, total: Option<real>)
    requires var c := Run(START, es);
             && n in c.requests && c.requests[n].phase == Registered && c.requests[n].state == Waiting
             && c.requests[n].hasProgress && OnlyHolder(c, n, c.requests[n].token)
    ensures var c := Run(START, es);
            var r := c.requests[n];
            RunTask(c, InboundTask(Progress(r.token, progress, total)))
            == c.(requests := c.requests[n := r.(log := r.log + [Progressed(progress, total)])])
  {
    RunKey(START, es, n, Run(START, es).requests[n].token);
  }
}
