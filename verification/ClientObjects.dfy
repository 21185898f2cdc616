/**
 * The client as the objects that src/client.cpp and src/pending_request.cpp
 * mutate: a PendingRequest per outbound request, shared by every table entry
 * that names it, and the McpClient that owns the table. Each method is proved
 * against the function of ClientModel that the run theorems are about.
 */
module ClientObjects {
  import opened Wrappers
  import opened RequestIds
  import opened PendingRequests
  import opened ClientModel

  class PendingRequest {
    const id: int
    const verb: string
    const token: RequestId
    const hasComplete: bool
    const hasError: bool
    const hasProgress: bool
    const timed: bool
    var state: RequestState
    var outcome: Option<Outcome>
    var promise: Option<Outcome>
    var log: seq<Event>
    ghost var phase: Phase

    ghost function View(): Request
      reads this
    {
      Request(verb, token, hasComplete, hasError, hasProgress, timed, phase, state, outcome, promise, log)
    }

    constructor (s: Submission, n: int)
      ensures id == n && View() == NewRequest(s, n)
    {
      id, verb, token := n, s.verb, ChooseToken(s, n);
      hasComplete, hasError, hasProgress, timed := s.hasComplete, s.hasError, s.hasProgress, s.timed;
      state, outcome, promise, log := Waiting, None, None, [];
      phase := Created;
    }

    method FinishWith(o: Outcome)
      modifies this
      ensures View() == Finish(old(View()), o)
    {
      var prev := state;
      state := o.Terminal();
      if prev != Waiting {
        return;
      }
      outcome := Some(o);
      if promise.None? {
        promise := Some(o);
        log := log + [PromiseSet(o)];
      }
      DispatchCallbacks(o);
    }

    method DispatchCallbacks(o: Outcome)
      modifies this`log
      ensures log == old(log) + [Dispatched(SlotFor(View(), o), o)]
    {
      var slot := NoHandler;
      if o.Success? {
        if hasComplete { slot := OnComplete; }
      } else if hasError {
        slot := OnError;
      }
      log := log + [Dispatched(slot, o)];
    }

    method Progress(progress: real, total: Option<real>)
      modifies this`log
      ensures View() == DeliverProgress(old(View()), progress, total)
    {
      if state != Waiting { return; }
      if !hasProgress { return; }
      log := log + [Progressed(progress, total)];
    }
  }

  ghost function Requests(created: map<int, PendingRequest>): map<int, Request>
    reads created.Values
  {
    map n | n in created :: created[n].View()
  }

  ghost function Names(table: map<RequestId, PendingRequest>): map<RequestId, int> {
    map k | k in table :: table[k].id
  }

  /** A change to one object is a change at one id. */
  lemma OneChanged(before: map<int, Request>, after: map<int, Request>, n: int)
    requires n in before && after.Keys == before.Keys
    requires forall m :: m in before && m != n ==> after[m] == before[m]
    ensures after == before[n := after[n]]
  {
  }

  lemma NamesStore(table: map<RequestId, PendingRequest>, key: RequestId, pr: PendingRequest)
    ensures Names(table[key := pr]) == Names(table)[key := pr.id]
  {
  }

  lemma NamesErase(table: map<RequestId, PendingRequest>, keys: set<RequestId>)
    ensures Names(table - keys) == Names(table) - keys
  {
  }

  lemma NamesNone()
    ensures Names(map[]) == map[]
  {
  }

  lemma AllNamed(table: map<RequestId, PendingRequest>, done: set<int>)
    requires forall k :: k in table ==> table[k].id in done
    requires forall n :: n in done ==> exists k :: k in table && table[k].id == n
    ensures done == Names(table).Values
  {
    forall n | n in done ensures n in Names(table).Values {
      var k :| k in table && table[k].id == n;
      assert Names(table)[k] == n;
    }
  }

  class McpClient {
    var nextId: int
    var stopping: bool
    var connected: bool
    var initialized: bool
    var serverResult: Option<Payload>
    var admitted: seq<Submission>
    var created: map<int, PendingRequest>
    var pendingMap: map<RequestId, PendingRequest>
    var strand: seq<Task>
    var running: Option<Continuation>
    var wire: seq<Sent>

    ghost predicate Valid()
      reads this
    {
      && (forall n :: n in created ==> created[n].id == n && n < nextId)
      && (forall k :: k in pendingMap ==>
            pendingMap[k].id in created && created[pendingMap[k].id] == pendingMap[k])
    }

    /** The abstract client: objects become values, references become ids. */
    ghost function View(): (c: Client)
      requires Valid()
      reads this, created.Values
      ensures Closed(c)
    {
      Client(nextId, stopping, connected, initialized, serverResult, admitted,
             Requests(created), Names(pendingMap), strand, running, wire)
    }

    constructor ()
      ensures Valid() && View() == START
    {
      nextId, stopping, connected, initialized := 1, false, false, false;
      serverResult, admitted, created, pendingMap := None, [], map[], map[];
      strand, running, wire := [], None, [];
      new;
      assert Requests(created) == map[] && Names(pendingMap) == map[];
    }

    method SubmitCheck(s: Submission) returns (ok: bool)
      requires Valid()
      modifies this`admitted
      ensures Valid() && View() == Apply(old(View()), Admit(s))
      ensures ok == Admissible(old(View()), s)
    {
      ok := !(stopping || (!connected && s.verb != METHOD_INITIALIZE));
      if ok {
        admitted := admitted + [s];
      }
    }

    method SubmitAllocate(i: nat) returns (pr: PendingRequest)
      requires Valid() && i < |admitted|
      modifies this`admitted, this`nextId, this`created
      ensures Valid() && View() == Apply(old(View()), Allocate(i))
      ensures fresh(pr) && pr.id == old(nextId) && created == old(created)[pr.id := pr]
    {
      pr := new PendingRequest(admitted[i], nextId);
      created := created[nextId := pr];
      nextId := nextId + 1;
      admitted := admitted[..i] + admitted[i + 1..];
      assert View().requests == old(View()).requests[pr.id := pr.View()];
    }

    method SubmitPost(pr: PendingRequest)
      requires Valid() && pr.id in created && created[pr.id] == pr && pr.phase == Created
      modifies this`strand, pr`phase
      ensures Valid() && View() == Apply(old(View()), Post(pr.id))
    {
      pr.phase := Posted;
      strand := strand + [RegisterTask(pr.id)];
      OneChanged(old(Requests(created)), Requests(created), pr.id);
    }

    method Stop()
      requires Valid()
      modifies this`stopping, this`strand
      ensures Valid() && View() == Apply(old(View()), StopCall)
    {
      if !stopping {
        stopping := true;
        strand := strand + [DrainTask("client shutting down")];
      }
    }

    method PostCancel(n: int, reason: string)
      requires Valid()
      modifies this`strand
      ensures Valid() && View() == Apply(old(View()), CancelCall(n, reason))
    {
      strand := strand + [CancelTask(n, reason)];
    }

    method StoreKeys(pr: PendingRequest)
      requires Valid() && pr.id in created && created[pr.id] == pr
      modifies this`pendingMap
      ensures Valid()
      ensures Names(pendingMap) ==
        var byId := old(Names(pendingMap))[IntId(pr.id) := pr.id];
        if pr.token != NullId && pr.token != IntId(pr.id) then byId[pr.token := pr.id] else byId
    {
      NamesStore(pendingMap, IntId(pr.id), pr);
      pendingMap := pendingMap[IntId(pr.id) := pr];
      if pr.token != NullId && pr.token != IntId(pr.id) {
        NamesStore(pendingMap, pr.token, pr);
        pendingMap := pendingMap[pr.token := pr];
      }
    }

    method RegisterPendingObject(pr: PendingRequest)
      requires Valid() && pr.id in created && created[pr.id] == pr
      modifies this`pendingMap, this`wire, pr`phase
      ensures Valid() && View() == RegisterPending(old(View()), pr.id)
    {
      StoreKeys(pr);
      wire := wire + [SentRequest(pr.id, pr.verb, if pr.hasProgress then Some(pr.token) else None)];
      pr.phase := Registered;
      OneChanged(old(Requests(created)), Requests(created), pr.id);
    }

    method EraseKeys(key: RequestId, pr: PendingRequest)
      requires Valid()
      modifies this`pendingMap
      ensures Valid()
      ensures Names(pendingMap) == old(Names(pendingMap)) - {key}
        - (if pr.token != NullId && pr.token != IntId(pr.id) then {pr.token} else {})
    {
      NamesErase(pendingMap, {key});
      pendingMap := pendingMap - {key};
      if pr.token != NullId && pr.token != IntId(pr.id) {
        NamesErase(pendingMap, {pr.token});
        pendingMap := pendingMap - {pr.token};
      }
    }

    method EraseAndFinish(key: RequestId, o: Outcome)
      requires Valid() && key in pendingMap
      modifies this`pendingMap, pendingMap[key]
      ensures Valid() && View() == FinishKey(old(View()), key, o)
    {
      var pr := pendingMap[key];
      EraseKeys(key, pr);
      pr.FinishWith(o);
      OneChanged(old(Requests(created)), Requests(created), pr.id);
    }

    method StoreHandshake(key: RequestId, n: int, o: Outcome)
      requires Valid() && o.Success?
      modifies this`serverResult, this`connected, this`initialized, this`running
      ensures Valid()
      ensures View() == old(View()).(serverResult := Some(o.result), connected := true, initialized := true,
                                     running := Some(FinishInitialize(key, n, o)))
    {
      serverResult := Some(o.result);
      connected := true;
      initialized := true;
      running := Some(FinishInitialize(key, n, o));
    }

    /** complete_pending up to the point where a user thread may step in. */
    method CompleteOrSuspend(key: RequestId, o: Outcome)
      requires Valid()
      modifies this`pendingMap, this`serverResult, this`connected, this`initialized, this`running, pendingMap.Values
      ensures Valid() && View() == CompletePending(old(View()), key, o)
    {
      if key !in pendingMap {
        return;
      }
      var pr := pendingMap[key];
      assert old(View()).requests[pr.id].verb == pr.verb;
      if o.Success? && pr.verb == METHOD_INITIALIZE {
        if HandshakeOk(o.result) {
          StoreHandshake(key, pr.id, o);
        } else {
          EraseAndFinish(key, UNSUPPORTED);
        }
      } else {
        EraseAndFinish(key, o);
      }
    }

    method ResumeHandshake()
      requires Valid() && running.Some?
      modifies this`pendingMap, this`wire, this`running, pendingMap.Values
      ensures Valid() && View() == Resume(old(View()), old(running.value))
    {
      var k := running.value;
      running := None;
      wire := wire + [SentInitialized];
      if k.key in pendingMap {
        EraseAndFinish(k.key, k.outcome);
      }
    }

    method RequestCancel(n: int, reason: string)
      requires Valid()
      modifies this, pendingMap.Values
      ensures Valid() && View() == CancelPending(old(View()), n, reason)
      ensures created == old(created)
    {
      if IntId(n) !in pendingMap {
        return;
      }
      var pr := pendingMap[IntId(n)];
      assert old(View()).requests[pr.id].state == pr.state;
      if pr.state != Waiting {
        return;
      }
      wire := wire + [SentCancelled(n, reason)];
      CompleteOrSuspend(IntId(n), Cancel(if reason == "" then "cancelled by client" else reason));
    }

    method TimerFired(pr: PendingRequest)
      requires Valid() && pr.id in created && created[pr.id] == pr
      modifies this, pendingMap.Values
      ensures Valid() && View() == OnTimer(old(View()), pr.id)
      ensures created == old(created)
    {
      assert View().requests[pr.id].state == pr.state;
      if pr.state != Waiting {
        return;
      }
      CompleteOrSuspend(IntId(pr.id), Timeout);
    }

    method HandleProgress(token: RequestId, progress: real, total: Option<real>)
      requires Valid()
      modifies pendingMap.Values
      ensures Valid() && View() == OnProgress(old(View()), token, progress, total)
    {
      if token in pendingMap {
        var pr := pendingMap[token];
        pr.Progress(progress, total);
        OneChanged(old(Requests(created)), Requests(created), pr.id);
      }
    }

    /** The loop over the table; a request keyed twice is finished once. */
    method FinishNamed(reason: string)
      requires Valid()
      modifies pendingMap.Values
      ensures forall n :: n in created ==>
        created[n].View() == FailIf(old(created[n].View()), n in Names(pendingMap).Values, reason)
    {
      var keys := pendingMap.Keys;
      ghost var done: set<int> := {};
      while keys != {}
        invariant keys <= pendingMap.Keys
        invariant forall n :: n in done ==> exists k :: k in pendingMap && pendingMap[k].id == n
        invariant forall k :: k in pendingMap && k !in keys ==> pendingMap[k].id in done
        invariant forall n :: n in created ==>
          created[n].View() == FailIf(old(created[n].View()), n in done, reason)
        decreases keys
      {
        var k :| k in keys;
        var pr := pendingMap[k];
        if pr.state == Waiting {
          pr.FinishWith(Failure(reason));
        }
        keys := keys - {k};
        done := done + {pr.id};
      }
      AllNamed(pendingMap, done);
    }

    method FailAllPending(reason: string)
      requires Valid()
      modifies this`pendingMap, pendingMap.Values
      ensures Valid() && View() == FailAll(old(View()), reason)
    {
      ghost var before := View();
      FinishNamed(reason);
      FailedAll(before, Requests(created), reason);
      pendingMap := map[];
      NamesNone();
    }

    method OnTransportMessage(m: Inbound)
      requires Valid()
      modifies this, pendingMap.Values
      ensures Valid() && View() == OnMessage(old(View()), m)
      ensures created == old(created)
    {
      match m
      case SuccessReply(id, result) => CompleteOrSuspend(id, Success(result));
      case ErrorReply(id, code, message) => CompleteOrSuspend(id, RpcError(code, message));
      case Progress(token, progress, total) => HandleProgress(token, progress, total);
      case Other =>
    }

    method Drain(reason: string)
      requires Valid()
      modifies this`connected, this`pendingMap, pendingMap.Values
      ensures Valid() && View() == FailAll(old(View()).(connected := false), reason)
    {
      connected := false;
      FailAllPending(reason);
    }

    method RunTaskObject(t: Task)
      requires Valid()
      modifies this, created.Values
      ensures Valid() && View() == RunTask(old(View()), t)
      ensures created == old(created)
    {
      match t
      case RegisterTask(n) =>
        if n in created { RegisterPendingObject(created[n]); }
      case InboundTask(m) => OnTransportMessage(m);
      case TimerTask(n) =>
        if n in created { TimerFired(created[n]); }
      case CancelTask(n, reason) => RequestCancel(n, reason);
      case DrainTask(reason) => Drain(reason);
    }

    /** One turn of the strand. */
    method RunStrand()
      requires Valid()
      modifies this, created.Values
      ensures Valid() && View() == Apply(old(View()), StrandStep)
    {
      if running.Some? {
        ResumeHandshake();
      } else if strand != [] {
        var t := strand[0];
        strand := strand[1..];
        RunTaskObject(t);
      }
    }
  }

  lemma FailedAll(c: Client, after: map<int, Request>, reason: string)
    requires Closed(c) && after.Keys == c.requests.Keys
    requires forall n :: n in c.requests ==> after[n] == FailIf(c.requests[n], n in c.pending.Values, reason)
    ensures FailAll(c, reason) == c.(requests := after, pending := map[])
  {
    var failed := FailAll(c, reason);
    assert failed.requests.Keys == after.Keys;
    forall n | n in after ensures failed.requests[n] == after[n] {
      assert n in c.requests;
    }
    assert failed.requests == after;
  }
}
