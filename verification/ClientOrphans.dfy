/**
 * When a request loses its place in pending_map_ (src/client.cpp): only another
 * request whose progress token is the number of its id can take it away.
 */
module ClientOrphans {
  import opened Wrappers
  import opened RequestIds
  import opened PendingRequests
  import opened ClientModel
  import opened ClientTheorems
  import opened ClientGuarantees

  /** The table's entry for n, if any, is n's, and n has one while it waits. */
  ghost predicate Own(c: Client, n: int) {
    && (IntId(n) in c.pending ==> c.pending[IntId(n)] == n)
    && (n in c.requests && c.requests[n].phase == Registered && c.requests[n].state == Waiting ==>
          IntId(n) in c.pending)
  }

  /** No other request uses the number n as its progress token. */
  predicate Unclaimed(c: Client, n: int) {
    forall m :: m in c.requests && m != n ==> c.requests[m].token != IntId(n)
  }

  // ------------------------------------------------------- the entry is kept

  lemma RegisterOwn(c: Client, m: int, n: int)
    requires Own(c, n) && Unclaimed(c, n) && m in c.requests
    ensures Own(RegisterPending(c, m), n)
  {
  }

  lemma FailAllOwn(c: Client, reason: string, n: int)
    requires Closed(c) && Own(c, n)
    ensures Own(FailAll(c, reason), n)
    ensures n in c.requests && c.requests[n].phase == Registered ==> FailAll(c, reason).requests[n].state != Waiting
  {
    if n in c.requests && c.requests[n].phase == Registered && c.requests[n].state == Waiting {
      assert c.pending[IntId(n)] == n && n in c.pending.Values;
    }
  }

  lemma RunTaskOwn(c: Client, t: Task, n: int)
    requires Closed(c) && Own(c, n) && Unclaimed(c, n)
    ensures Own(RunTask(c, t), n)
  {
    if t.RegisterTask? {
      if t.n in c.requests { RegisterOwn(c, t.n, n); }
    } else {
      RunTaskNotLost(c, t, n);
    }
  }

  lemma StrandOwn(c: Client, n: int)
    requires Closed(c) && Own(c, n) && Unclaimed(c, n)
    ensures Own(StrandAdvance(c), n)
  {
    if c.running.Some? {
      ResumeNotLost(c, n);
    } else if c.strand != [] {
      RunTaskOwn(c.(strand := c.strand[1..]), c.strand[0], n);
    }
  }

  lemma StepOwn(c: Client, e: Step, n: int)
    requires Closed(c) && Numbered(c) && Own(c, n) && Unclaimed(c, n)
    ensures Own(Apply(c, e), n)
  {
    match e
    case StrandStep => StrandOwn(c, n);
    case Allocate(i) => AllocateOwn(c, i, n);
    case Post(m) => PostOwn(c, m, n);
    case _ =>
  }

  lemma AllocateOwn(c: Client, i: nat, n: int)
    requires Closed(c) && Own(c, n)
    ensures Own(AllocateRequest(c, i), n)
  {
  }

  lemma PostOwn(c: Client, m: int, n: int)
    requires Closed(c) && Own(c, n)
    ensures Own(PostRequest(c, m), n)
  {
  }

  /** Tokens never change, so what is unclaimed at the end was so all along. */
  lemma UnclaimedBack(c: Client, es: seq<Step>, n: int)
    requires Closed(c) && AllExactlyOnce(c.requests) && Numbered(c) && Unclaimed(Run(c, es), n)
    ensures Unclaimed(c, n)
  {
    RunOutcomes(c, es);
    forall m | m in c.requests && m != n ensures c.requests[m].token != IntId(n) {
      assert Evolves(c.requests[m], Run(c, es).requests[m]);
    }
  }

  lemma {:induction false} RunOwn(c: Client, es: seq<Step>, n: int)
    requires Closed(c) && AllExactlyOnce(c.requests) && Numbered(c) && Own(c, n) && Unclaimed(Run(c, es), n)
    ensures Own(Run(c, es), n)
    decreases |es|
  {
    if es != [] {
      UnclaimedBack(c, es, n);
      StepOutcomes(c, es[0]);
      StepOwn(c, es[0], n);
      RunOwn(Apply(c, es[0]), es[1..], n);
    }
  }

  /** On every run, whatever tokens the others use: a request whose id is nobody
      else's token is in the table under it from registration until it finishes. */
  lemma OwnEntry(es: seq<Step>, n: int)
    requires Unclaimed(Run(START, es), n)
    ensures Own(Run(START, es), n)
  {
    RunOwn(START, es, n);
  }

  /** So a reply to its id finishes it and no other, and a drain finishes it. */
  lemma OwnIsServed(c: Client, n: int, o: Outcome, reason: string)
    requires Closed(c) && Own(c, n) && n in c.requests && c.requests[n].phase == Registered
    requires c.requests[n].state == Waiting && !(o.Success? && c.requests[n].verb == METHOD_INITIALIZE)
    ensures CompletePending(c, IntId(n), o).requests == c.requests[n := Finish(c.requests[n], o)]
    ensures RunTask(c, DrainTask(reason)).requests[n].state != Waiting
  {
    FailAllOwn(c.(connected := false), reason, n);
  }

  // --------------------------------------------------- the exact condition

  /** Registered and waiting, but not in the table under its own id. */
  predicate Lost(c: Client, n: int) {
    && n in c.requests && c.requests[n].phase == Registered && c.requests[n].state == Waiting
    && !(IntId(n) in c.pending && c.pending[IntId(n)] == n)
  }

  /** Some other request in the table has the number n as its token. */
  ghost predicate Claimed(c: Client, n: int)
    requires Closed(c)
  {
    exists k :: k in c.pending && c.pending[k] != n && c.requests[c.pending[k]].token == IntId(n)
  }

  predicate NoSubmission(es: seq<Step>) {
    forall i :: 0 <= i < |es| ==> !es[i].Admit?
  }

  /** Everything submitted has been registered. */
  predicate AllRegistered(c: Client) {
    && c.admitted == []
    && (forall i :: 0 <= i < |c.strand| ==> !c.strand[i].RegisterTask?)
    && (forall m :: m in c.requests ==> c.requests[m].phase == Registered)
  }

  /** The table only shrinks; tokens and phases stay. */
  ghost predicate TableShrinks(c: Client, c': Client) {
    && Closed(c') && AllRegistered(c') && c'.requests.Keys == c.requests.Keys
    && (forall k :: k in c'.pending ==> k in c.pending && c'.pending[k] == c.pending[k])
    && (forall m :: m in c.requests ==> c'.requests[m].token == c.requests[m].token)
  }

  lemma CompleteShrinks(c: Client, key: RequestId, o: Outcome)
    requires Closed(c) && AllRegistered(c)
    ensures TableShrinks(c, CompletePending(c, key, o))
  {
    if key in c.pending {
      FinishKeyShrinks(c, key, o);
      FinishKeyShrinks(c, key, UNSUPPORTED);
    }
  }

  lemma FinishKeyShrinks(c: Client, key: RequestId, o: Outcome)
    requires Closed(c) && AllRegistered(c) && key in c.pending
    ensures TableShrinks(c, FinishKey(c, key, o))
  {
  }

  lemma RunTaskShrinks(c: Client, t: Task)
    requires Closed(c) && AllRegistered(c) && !t.RegisterTask?
    ensures TableShrinks(c, RunTask(c, t))
  {
    match t
    case InboundTask(m) =>
      match m {
        case SuccessReply(id, result) => CompleteShrinks(c, id, Success(result));
        case ErrorReply(id, code, message) => CompleteShrinks(c, id, RpcError(code, message));
        case Progress(token, progress, total) =>
        case Other =>
      }
    case TimerTask(n) => CompleteShrinks(c, IntId(n), Timeout);
    case CancelTask(n, reason) =>
      CompleteShrinks(c.(wire := c.wire + [SentCancelled(n, reason)]), IntId(n),
                      Cancel(if reason == "" then "cancelled by client" else reason));
    case DrainTask(reason) =>
  }

  lemma StrandShrinks(c: Client)
    requires Closed(c) && AllRegistered(c)
    ensures TableShrinks(c, StrandAdvance(c))
  {
    if c.running.None? && c.strand != [] {
      var popped := c.(strand := c.strand[1..]);
      assert AllRegistered(popped);
      RunTaskShrinks(popped, c.strand[0]);
    }
  }

  lemma StepShrinks(c: Client, e: Step)
    requires Closed(c) && AllRegistered(c) && !e.Admit?
    ensures TableShrinks(c, Apply(c, e))
  {
    if e.StrandStep? {
      StrandShrinks(c);
    } else {
      assert Apply(c, e).pending == c.pending && Apply(c, e).requests == c.requests;
    }
  }

  lemma StepNotLost(c: Client, e: Step, n: int)
    requires Closed(c) && Numbered(c) && AllRegistered(c) && !e.Admit? && Own(c, n) && !Claimed(c, n)
    ensures Own(Apply(c, e), n) && !Claimed(Apply(c, e), n)
  {
    StepShrinks(c, e);
    if e.StrandStep? {
      StrandNotLost(c, n);
    } else {
      assert Apply(c, e).pending == c.pending && Apply(c, e).requests == c.requests;
    }
  }

  lemma FinishKeyNotLost(c: Client, key: RequestId, o: Outcome, n: int)
    requires Closed(c) && Own(c, n) && !Claimed(c, n) && key in c.pending
    ensures Own(FinishKey(c, key, o), n)
  {
    var m := c.pending[key];
    assert m != n ==> c.requests[m].token != IntId(n);
  }

  lemma CompleteNotLost(c: Client, key: RequestId, o: Outcome, n: int)
    requires Closed(c) && Own(c, n) && !Claimed(c, n)
    ensures Own(CompletePending(c, key, o), n)
  {
    if key in c.pending {
      FinishKeyNotLost(c, key, o, n);
      FinishKeyNotLost(c, key, UNSUPPORTED, n);
    }
  }

  lemma RunTaskNotLost(c: Client, t: Task, n: int)
    requires Closed(c) && Own(c, n) && !Claimed(c, n) && !t.RegisterTask?
    ensures Own(RunTask(c, t), n)
  {
    match t
    case InboundTask(m) =>
      match m {
        case SuccessReply(id, result) => CompleteNotLost(c, id, Success(result), n);
        case ErrorReply(id, code, message) => CompleteNotLost(c, id, RpcError(code, message), n);
        case Progress(token, progress, total) =>
        case Other =>
      }
    case TimerTask(m) => CompleteNotLost(c, IntId(m), Timeout, n);
    case CancelTask(m, reason) =>
      var noted := c.(wire := c.wire + [SentCancelled(m, reason)]);
      assert !Claimed(noted, n);
      CompleteNotLost(noted, IntId(m), Cancel(if reason == "" then "cancelled by client" else reason), n);
    case DrainTask(reason) => FailAllOwn(c.(connected := false), reason, n);
  }

  lemma ResumeNotLost(c: Client, n: int)
    requires Closed(c) && c.running.Some? && Own(c, n) && !Claimed(c, n)
    ensures Own(StrandAdvance(c), n)
  {
    var k := c.running.value;
    var sent := c.(running := None, wire := c.wire + [SentInitialized]);
    assert !Claimed(sent, n);
    if k.key in c.pending { FinishKeyNotLost(sent, k.key, k.outcome, n); }
  }

  lemma StrandNotLost(c: Client, n: int)
    requires Closed(c) && AllRegistered(c) && Own(c, n) && !Claimed(c, n)
    ensures Own(StrandAdvance(c), n)
  {
    if c.running.Some? {
      ResumeNotLost(c, n);
    } else if c.strand != [] {
      var popped := c.(strand := c.strand[1..]);
      assert !Claimed(popped, n);
      RunTaskNotLost(popped, c.strand[0], n);
    }
  }

  lemma {:induction false} RunNotLost(c: Client, es: seq<Step>, n: int)
    requires Closed(c) && Numbered(c) && AllExactlyOnce(c.requests) && AllRegistered(c)
    requires NoSubmission(es) && Own(c, n) && !Claimed(c, n)
    ensures Own(Run(c, es), n)
    decreases |es|
  {
    if es != [] {
      StepShrinks(c, es[0]);
      StepNotLost(c, es[0], n);
      StepOutcomes(c, es[0]);
      RunNotLost(Apply(c, es[0]), es[1..], n);
    }
  }

  ghost predicate CanBeLost(c: Client, n: int)
    requires Closed(c)
  {
    exists es :: NoSubmission(es) && Lost(Run(c, es), n)
  }

  lemma ClaimLoses(c: Client, n: int)
    requires Closed(c) && c.strand == [] && c.running.None? && Claimed(c, n) && !Lost(c, n)
    requires n in c.requests && c.requests[n].phase == Registered && c.requests[n].state == Waiting
    ensures CanBeLost(c, n)
  {
    var k :| k in c.pending && c.pending[k] != n && c.requests[c.pending[k]].token == IntId(n);
    var es := [Deliver(ErrorReply(k, 0, "")), StrandStep, StrandStep];
    ReplyTwoTurns(c, k, ErrorReply(k, 0, ""), RpcError(0, ""));
    ErrorReplyErases(c, k);
    assert Lost(Run(c, es), n);
  }

  lemma ErrorReplyErases(c: Client, key: RequestId)
    requires Closed(c) && c.strand == [] && c.running.None? && key in c.pending
    ensures Run(c, [Deliver(ErrorReply(key, 0, "")), StrandStep, StrandStep]).pending
            == FinishKey(c, key, RpcError(0, "")).pending
  {
    var m := ErrorReply(key, 0, "");
    var c1 := Apply(c, Deliver(m));
    assert c1.strand == [InboundTask(m)] && c1.strand[1..] == [];
    var c2 := Apply(c1, StrandStep);
    var c3 := Apply(c2, StrandStep);
    var fs := [Deliver(m), StrandStep, StrandStep];
    assert fs[1..] == [StrandStep, StrandStep];
    assert [StrandStep, StrandStep][1..] == [StrandStep] && [StrandStep][1..] == [];
    assert Run(c, fs) == Run(c1, [StrandStep, StrandStep]) == Run(c2, [StrandStep]) == Run(c3, []);
  }

  /** With everything submitted registered and nothing under way, a waiting
      request can still lose its entry, without further submissions, if and only
      if another request in the table carries its id as a token. */
  lemma LoseExact(c: Client, n: int)
    requires Closed(c) && Numbered(c) && AllExactlyOnce(c.requests) && AllRegistered(c)
    requires c.strand == [] && c.running.None?
    requires n in c.requests && c.requests[n].state == Waiting && !Lost(c, n)
    ensures CanBeLost(c, n) <==> Claimed(c, n)
  {
    if Claimed(c, n) {
      ClaimLoses(c, n);
    } else {
      forall es | NoSubmission(es) ensures !Lost(Run(c, es), n) {
        RunNotLost(c, es, n);
      }
    }
  }

  // ------------------------------------------------------------ a request abandoned

  /** Nothing can reach the table any more: no entry, no registration under way,
      and a stopping client refuses submissions. */
  predicate ShutDown(c: Client) {
    c.stopping && c.pending == map[] && c.running.None? && AllRegistered(c)
  }

  lemma {:induction false} AbandonedForever(c: Client, es: seq<Step>)
    requires ShutDown(c) && Closed(c)
    ensures Run(c, es).requests == c.requests
    decreases |es|
  {
    if es != [] {
      ShutDownStays(c, es[0]);
      AbandonedForever(Apply(c, es[0]), es[1..]);
    }
  }

  lemma ShutDownStays(c: Client, e: Step)
    requires ShutDown(c) && Closed(c)
    ensures ShutDown(Apply(c, e)) && Apply(c, e).requests == c.requests
  {
    if e.StrandStep? && c.strand != [] {
      var popped := c.(strand := c.strand[1..]);
      assert !c.strand[0].RegisterTask?;
      assert AllRegistered(popped);
      IdleTask(popped, c.strand[0]);
    }
  }

  lemma IdleTask(c: Client, t: Task)
    requires ShutDown(c) && Closed(c) && !t.RegisterTask?
    ensures ShutDown(RunTask(c, t)) && RunTask(c, t).requests == c.requests
  {
    if t.DrainTask? {
      var failed := FailAll(c.(connected := false), t.reason).requests;
      assert forall n :: n !in c.pending.Values;
      assert forall n :: n in c.requests ==> failed[n] == c.requests[n];
      assert failed == c.requests;
    }
  }

  /** Submitting a request and registering it. */
  lemma Submitted(es: seq<Step>, s: Submission) returns (fs: seq<Step>)
    requires var c := Run(START, es);
             c.connected && !c.stopping && c.admitted == [] && c.strand == [] && c.running.None?
    ensures var c := Run(START, es);
            var r := NewRequest(s, c.nextId).(phase := Posted);
            Run(START, fs)
            == RegisterPending(c.(nextId := c.nextId + 1, requests := c.requests[c.nextId := r]), c.nextId)
  {
    var c := Run(START, es);
    var n := c.nextId;
    RunLast(START, es, Admit(s));
    RunLast(START, es + [Admit(s)], Allocate(0));
    RunLast(START, es + [Admit(s)] + [Allocate(0)], Post(n));
    fs := es + [Admit(s)] + [Allocate(0)] + [Post(n)] + [StrandStep];
    RunLast(START, es + [Admit(s)] + [Allocate(0)] + [Post(n)], StrandStep);
    var posted := Run(START, es + [Admit(s)] + [Allocate(0)] + [Post(n)]);
    assert posted.strand == [RegisterTask(n)] && posted.strand[1..] == [];
    assert posted.requests == c.requests[n := NewRequest(s, n).(phase := Posted)];
    assert posted.admitted == [];
  }

  const LOGIN := Submission(METHOD_INITIALIZE, None, true, true, false, false)
  const LOGGED_IN := Client(
    2, false, true, true, Some(WELCOME), [],
    map[1 := Finish(NewRequest(LOGIN, 1).(phase := Registered), Success(WELCOME))],
    map[], [], None, [SentRequest(1, METHOD_INITIALIZE, None), SentInitialized])

  lemma ReachLogin() returns (es: seq<Step>)
    ensures Run(START, es) == START.(
              nextId := 2, requests := map[1 := NewRequest(LOGIN, 1).(phase := Registered)],
              pending := map[IntId(1) := 1], wire := [SentRequest(1, METHOD_INITIALIZE, None)])
  {
    es := [];
    RunLast(START, es, Admit(LOGIN));
    es := es + [Admit(LOGIN)];
    RunLast(START, es, Allocate(0));
    es := es + [Allocate(0)];
    RunLast(START, es, Post(1));
    es := es + [Post(1)];
    RunLast(START, es, StrandStep);
    es := es + [StrandStep];
  }

  /** One message or stop, and the turn of the strand that handles it. */
  lemma TwoSteps(es: seq<Step>, e: Step) returns (fs: seq<Step>)
    ensures fs == es + [e] + [StrandStep]
    ensures Run(START, fs) == Apply(Apply(Run(START, es), e), StrandStep)
  {
    RunLast(START, es, e);
    RunLast(START, es + [e], StrandStep);
    fs := es + [e] + [StrandStep];
  }

  lemma WelcomeTurns(c: Client)
    requires Closed(c) && c.strand == [] && c.running.None? && c.pending == map[IntId(1) := 1]
    requires 1 in c.requests && c.requests[1].verb == METHOD_INITIALIZE && c.requests[1].token == NullId
    ensures var m := Deliver(SuccessReply(IntId(1), WELCOME));
            Apply(Apply(Apply(c, m), StrandStep), StrandStep)
            == c.(connected := true, initialized := true, serverResult := Some(WELCOME), pending := map[],
                  requests := c.requests[1 := Finish(c.requests[1], Success(WELCOME))],
                  wire := c.wire + [SentInitialized])
  {
    var c1 := Apply(c, Deliver(SuccessReply(IntId(1), WELCOME)));
    assert c1.strand[1..] == [];
    var c2 := Apply(c1, StrandStep);
    assert c2.running == Some(FinishInitialize(IntId(1), 1, Success(WELCOME)));
    assert c.pending - {IntId(1)} - {} == map[];
  }

  lemma ReachConnected() returns (es: seq<Step>)
    ensures Run(START, es) == LOGGED_IN
  {
    var es0 := ReachLogin();
    var m := Deliver(SuccessReply(IntId(1), WELCOME));
    WelcomeTurns(Run(START, es0));
    var es1 := TwoSteps(es0, m);
    RunLast(START, es1, StrandStep);
    es := es1 + [StrandStep];
    assert Run(START, es).requests == LOGGED_IN.requests;
  }

  const PLAIN := Submission("tools/list", None, true, true, false, false)
  const CLASHING := Submission("tools/call", Some(IntId(2)), true, true, false, false)

  lemma ReachClash() returns (es: seq<Step>)
    ensures var c := Run(START, es);
            && !c.stopping && c.admitted == [] && c.strand == [] && c.running.None?
            && c.pending == map[IntId(2) := 3, IntId(3) := 3]
            && c.requests == map[1 := LOGGED_IN.requests[1], 2 := NewRequest(PLAIN, 2).(phase := Registered),
                                 3 := NewRequest(CLASHING, 3).(phase := Registered)]
  {
    var es0 := ReachConnected();
    var es1 := Submitted(es0, PLAIN);
    es := Submitted(es1, CLASHING);
  }

  lemma Misroute(c: Client)
    requires Closed(c) && c.strand == [] && c.running.None?
    requires c.pending == map[IntId(2) := 3, IntId(3) := 3]
    requires 3 in c.requests && c.requests[3].verb != METHOD_INITIALIZE && c.requests[3].token == IntId(2)
    ensures var c' := Apply(Apply(c, Deliver(SuccessReply(IntId(2), WELCOME))), StrandStep);
            c' == c.(pending := map[IntId(3) := 3],
                     requests := c.requests[3 := Finish(c.requests[3], Success(WELCOME))])
  {
    var c1 := Apply(c, Deliver(SuccessReply(IntId(2), WELCOME)));
    assert c1.strand[1..] == [];
    assert c.pending - {IntId(2)} - {IntId(2)} == map[IntId(3) := 3];
  }

  lemma StopAndDrain(c: Client)
    requires Closed(c) && c.strand == [] && c.running.None? && !c.stopping && c.pending == map[IntId(3) := 3]
    requires 3 in c.requests && c.requests[3].state != Waiting
    ensures var c' := Apply(Apply(c, StopCall), StrandStep);
            c' == c.(stopping := true, connected := false, pending := map[])
  {
    var c1 := Apply(c, StopCall);
    assert c1.strand[1..] == [];
    var failed := FailAll(c1.(connected := false), "client shutting down").requests;
    assert forall n :: n in c.pending.Values ==> n == 3;
    assert forall n :: n in c.requests ==> failed[n] == c.requests[n];
    assert failed == c.requests;
  }

  /** A plain request and one whose custom token is the plain one's id: the reply
      to the first finishes the second, a stop empties the table, and the first
      waits for ever. */
  lemma OrphanRun() returns (es: seq<Step>)
    ensures var c := Run(START, es);
            && ShutDown(c) && 2 in c.requests && 3 in c.requests
            && c.requests[2].phase == Registered && c.requests[2].state == Waiting
            && c.requests[3].outcome == Some(Success(WELCOME))
    ensures forall fs :: Run(START, es + fs).requests == Run(START, es).requests
  {
    var es0 := ReachClash();
    Misroute(Run(START, es0));
    var es1 := TwoSteps(es0, Deliver(SuccessReply(IntId(2), WELCOME)));
    StopAndDrain(Run(START, es1));
    es := TwoSteps(es1, StopCall);
    forall fs ensures Run(START, es + fs).requests == Run(START, es).requests {
      RunConcat(START, es, fs);
      AbandonedForever(Run(START, es), fs);
    }
  }
}
