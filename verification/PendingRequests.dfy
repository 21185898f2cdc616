/**
 * One outbound request and its single terminal write point
 * (include/cppmcp/pending_request.hpp, src/pending_request.cpp).
 * The log records what the user can observe: the promise being satisfied, the
 * callbacks dispatched (inline or posted to the callback executor), in order.
 */
module PendingRequests {
  import opened Wrappers
  import opened RequestIds

  datatype RequestState = Waiting | Succeeded | Errored | TimedOut | Cancelled | Failed

  /** A JSON result: its text, its "protocolVersion" member when that is a
      string, and whether it decodes as an InitializeResult. */
  datatype Payload = Payload(text: string, version: Option<string>, decodes: bool)

  /** McpOutcome: no constructor carries Waiting, as no caller builds one. */
  datatype Outcome =
    | Success(result: Payload)
    | RpcError(code: int, message: string)
    | Timeout
    | Cancel(reason: string)
    | Failure(reason: string)
  {
    function Terminal(): (s: RequestState)
      ensures s != Waiting
    {
      match this
      case Success(_) => Succeeded
      case RpcError(_, _) => Errored
      case Timeout => TimedOut
      case Cancel(_) => Cancelled
      case Failure(_) => Failed
    }
  }

  datatype Slot = OnComplete | OnError | NoHandler

  datatype Event =
    | PromiseSet(outcome: Outcome)
    | Dispatched(slot: Slot, outcome: Outcome)
    | Progressed(progress: real, total: Option<real>)

  /** How far the registration of a request has come: constructed on the user
      thread, its strand task posted, the strand task run. */
  datatype Phase = Created | Posted | Registered

  datatype Request = Request(
    verb: string, token: RequestId,
    hasComplete: bool, hasError: bool, hasProgress: bool, timed: bool,
    phase: Phase, state: RequestState,
    outcome: Option<Outcome>, promise: Option<Outcome>, log: seq<Event>)

  function SlotFor(r: Request, o: Outcome): Slot {
    if o.Success? then (if r.hasComplete then OnComplete else NoHandler)
    else if r.hasError then OnError else NoHandler
  }

  /** finish: the exchange of state_ is unconditional; everything after it
      happens only when the previous state was Waiting. */
  function Finish(r: Request, o: Outcome): Request {
    var r' := r.(state := o.Terminal());
    if r.state != Waiting then r'
    else
      var fulfilled := r.promise.None?;
      r'.(outcome := Some(o),
          promise := if fulfilled then Some(o) else r.promise,
          log := r.log + (if fulfilled then [PromiseSet(o)] else []) + [Dispatched(SlotFor(r, o), o)])
  }

  function DeliverProgress(r: Request, progress: real, total: Option<real>): Request {
    if r.state != Waiting || !r.hasProgress then r
    else r.(log := r.log + [Progressed(progress, total)])
  }

  /** on_complete runs for a success and on_error for every other outcome, each
      only if the request has it. */
  predicate RightCallback(r: Request, slot: Slot, o: Outcome) {
    && (slot == OnComplete <==> o.Success? && r.hasComplete)
    && (slot == OnError <==> !o.Success? && r.hasError)
  }

  /** The terminal state that belongs to each outcome. */
  predicate Agrees(s: RequestState, o: Outcome) {
    && (s == Succeeded <==> o.Success?) && (s == Errored <==> o.RpcError?) && (s == TimedOut <==> o.Timeout?)
    && (s == Cancelled <==> o.Cancel?) && (s == Failed <==> o.Failure?)
  }

  /** The exactly-once law for one request: nothing but progress while Waiting;
      once terminal, progress, then one PromiseSet and one Dispatched carrying
      the same outcome, and nothing after them. */
  ghost predicate ExactlyOnce(r: Request) {
    && (r.state == Waiting ==>
          && r.outcome.None? && r.promise.None?
          && OnlyProgress(r.log))
    && (r.state != Waiting ==>
          && r.outcome.Some? && r.promise == r.outcome
          && |r.log| >= 2
          && OnlyProgress(r.log[..|r.log| - 2])
          && r.log[|r.log| - 2] == PromiseSet(r.outcome.value)
          && var last := r.log[|r.log| - 1];
             last.Dispatched? && last.outcome == r.outcome.value && RightCallback(r, last.slot, r.outcome.value))
  }

  ghost predicate OnlyProgress(log: seq<Event>) {
    forall i :: 0 <= i < |log| ==> log[i].Progressed?
  }

  /** What may happen to a request between two moments of a run. */
  ghost predicate Evolves(r: Request, r': Request) {
    && r'.verb == r.verb && r'.token == r.token && r'.timed == r.timed
    && r'.hasComplete == r.hasComplete && r'.hasError == r.hasError && r'.hasProgress == r.hasProgress
    && r.log <= r'.log
    && (r.phase == Registered ==> r'.phase == Registered)
    && (r.state != Waiting ==>
          && r'.state != Waiting
          && r'.outcome == r.outcome && r'.promise == r.promise && r'.log == r.log)
  }

  lemma FinishExactlyOnce(r: Request, o: Outcome)
    requires ExactlyOnce(r)
    ensures ExactlyOnce(Finish(r, o)) && Evolves(r, Finish(r, o))
    ensures Agrees(Finish(r, o).state, o)
    ensures Finish(r, o).outcome == if r.state == Waiting then Some(o) else r.outcome
  {
    var f := Finish(r, o);
    if r.state == Waiting {
      assert f.log[..|f.log| - 2] == r.log;
    }
  }

  lemma ProgressExactlyOnce(r: Request, progress: real, total: Option<real>)
    requires ExactlyOnce(r)
    ensures ExactlyOnce(DeliverProgress(r, progress, total))
    ensures Evolves(r, DeliverProgress(r, progress, total))
    ensures r.state == Waiting && r.hasProgress ==>
              DeliverProgress(r, progress, total).log == r.log + [Progressed(progress, total)]
  {
  }
}
