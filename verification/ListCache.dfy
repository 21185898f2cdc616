/**
 * The list cache (src/server.cpp, handle_list_request, invalidate_list_cache,
 * set_list_page_size, and the freezing of the registries in run). A request
 * that misses looks the cache up and fills it in two separate lock sections, so
 * other threads' steps may come between: such a fill is in flight meanwhile.
 */
module ListCache {
  import opened Wrappers
  import opened RequestIds
  import opened Json
  import opened ListPaging

  datatype Kind = Tools | Resources | Templates | Prompts

  function ResultKey(k: Kind): string {
    match k
    case Tools => "tools"
    case Resources => "resources"
    case Templates => "resourceTemplates"
    case Prompts => "prompts"
  }

  /** Where a list comes from: the registered entries, or a user's list handler. */
  datatype Source = Registered(items: seq<Json>) | UserHandler

  datatype Registry = Registry(tools: Source, resources: Source, templates: Source, prompts: Source) {
    function Get(k: Kind): Source {
      match k
      case Tools => tools
      case Resources => resources
      case Templates => templates
      case Prompts => prompts
    }

    function Set(k: Kind, s: Source): (r: Registry)
      ensures forall j :: r.Get(j) == if j == k then s else Get(j)
    {
      match k
      case Tools => this.(tools := s)
      case Resources => this.(resources := s)
      case Templates => this.(templates := s)
      case Prompts => this.(prompts := s)
    }
  }

  datatype Fill = Fill(kind: Kind, result: Json)

  datatype State = State(
    live: Registry, copy: Registry, frozen: bool, enabled: bool, pageSize: nat,
    cache: map<Kind, Json>, inFlight: seq<Fill>, host: Host)

  /** How a transport delivers: every transport of the repository through the
      server's io_context, a user's own ITransport perhaps on a thread of its own. */
  datatype Delivery = IoContext | OwnThread

  /** The life of the server: `started` between a transport's start and stop,
      `starting` inside run() until start returns or throws, `looping` while some
      thread is in io_ctx_.run(), `stopped` for good after stop(). */
  datatype Host = Host(
    transport: Option<Delivery>, attached: bool, started: bool,
    running: bool, starting: bool, looping: bool, stopped: bool)

  /** A message can reach on_message. */
  predicate CanDeliver(h: Host) {
    h.attached && (h.looping || (h.transport == Some(OwnThread) && h.started))
  }

  const EMPTY := Registry(Registered([]), Registered([]), Registered([]), Registered([]))
  const NEW_HOST := Host(None, false, false, false, false, false, false)

  function NewServer(registry: Registry): State {
    State(registry, EMPTY, false, true, 0, map[], [], NEW_HOST)
  }

  // ------------------------------------------------------------ list requests

  datatype Reply = Result(value: Json) | Error(code: int, why: string) | Undefined

  /** What the item producer returns; `supplied` is a user handler's answer. */
  function Produce(s: State, k: Kind, supplied: seq<Json>): seq<Json> {
    var src := if s.frozen then s.copy.Get(k) else s.live.Get(k);
    if src.Registered? then src.items else supplied
  }

  function Whole(k: Kind, items: seq<Json>): Json {
    JObj(map[ResultKey(k) := JArr(items)])
  }

  function PageReply(k: Kind, page: Page): Reply {
    match page
    case BadRange => Undefined
    case Page(items, next) =>
      var fields := map[ResultKey(k) := JArr(items)];
      Result(JObj(if next.Some? then fields["nextCursor" := JStr(next.value)] else fields))
  }

  /** The reply of a server that has no cache. */
  function Uncached(s: State, k: Kind, params: Json, supplied: seq<Json>): Reply {
    var items := Produce(s, k, supplied);
    if s.pageSize == 0 then Result(Whole(k, items))
    else
      match StartOf(params)
      case BadCursor => Error(INVALID_PARAMS, "Invalid cursor")
      case Overflow => Error(INTERNAL_ERROR, "stoull")
      case Offset(n) => PageReply(k, PageAt(items, s.pageSize, n))
  }

  predicate Cacheable(s: State) {
    s.enabled && s.frozen && s.pageSize == 0
  }

  /** The reply of the code: a filled cache field is used as it is. */
  function ReplyTo(s: State, k: Kind, params: Json, supplied: seq<Json>): Reply {
    if Cacheable(s) && k in s.cache then Result(s.cache[k]) else Uncached(s, k, params, supplied)
  }

  function StartFill(s: State, k: Kind, supplied: seq<Json>): State {
    if Cacheable(s) && k !in s.cache
    then s.(inFlight := s.inFlight + [Fill(k, Whole(k, Produce(s, k, supplied)))])
    else s
  }

  function EndFill(s: State, i: nat): State {
    if i < |s.inFlight|
    then s.(cache := s.cache[s.inFlight[i].kind := s.inFlight[i].result],
            inFlight := s.inFlight[..i] + s.inFlight[i + 1..])
    else s
  }

  /** Both sections of a request, with nothing in between. */
  function FillBoth(s: State, k: Kind, supplied: seq<Json>): State {
    if Cacheable(s) && k !in s.cache then EndFill(StartFill(s, k, supplied), |s.inFlight|) else s
  }

  lemma FillAtOnce(s: State, k: Kind, supplied: seq<Json>)
    requires Cacheable(s) && k !in s.cache
    ensures FillBoth(s, k, supplied) == s.(cache := s.cache[k := Whole(k, Produce(s, k, supplied))])
  {
    var f := Fill(k, Whole(k, Produce(s, k, supplied)));
    assert (s.inFlight + [f])[..|s.inFlight|] + [] == s.inFlight;
  }

  // --------------------------------------------------------------------- runs

  datatype Step =
    | List(kind: Kind, supplied: seq<Json>)   // the lookup section, and the items
    | EndList(i: nat)                         // the fill section of an earlier miss
    | Invalidate
    | SetPageSize(n: nat)
    | Register(kind: Kind, source: Source)
    | Connect(delivery: Delivery)
    | BeginRun                                // run() up to transport_->start()
    | StartFails                              // that call throws and run() returns
    | EnterLoop                               // that call returns and run() goes on
    | LoopEnds                                // io_ctx_.run() returns by an exception
    | Stop

  function Apply(s: State, step: Step): State {
    match step
    case List(k, supplied) => if CanDeliver(s.host) then StartFill(s, k, supplied) else s
    case EndList(i) => EndFill(s, i)
    case Invalidate => s.(cache := map[])
    case SetPageSize(n) => s.(pageSize := n, cache := map[])
    case Register(k, src) => if s.host.running then s else s.(live := s.live.Set(k, src))
    case _ => ApplyHost(s, step)
  }

  function ApplyHost(s: State, step: Step): State {
    match step
    case Connect(d) => s.(host := s.host.(transport := Some(d), attached := true, started := false))
    case BeginRun =>
      if s.host.transport.None? then s
      else s.(copy := s.live, frozen := true, host := s.host.(running := true, starting := true, started := true))
    case StartFails =>
      if !s.host.starting then s
      else s.(frozen := false, host := s.host.(running := false, starting := false, started := false))
    case EnterLoop =>
      if !s.host.starting then s
      else s.(host := s.host.(starting := false, looping := s.host.looping || !s.host.stopped))
    case LoopEnds => s.(host := s.host.(looping := false))
    case Stop =>
      if s.host.stopped then s
      else s.(host := s.host.(attached := false, started := false, running := false, looping := false, stopped := true))
    case _ => s
  }

  function Run(s: State, steps: seq<Step>): State {
    if steps == [] then s else Apply(Run(s, steps[..|steps| - 1]), steps[|steps| - 1])
  }

  // ------------------------------------------------------------- transparency

  predicate NoHandlers(r: Registry) {
    forall k :: r.Get(k).Registered?
  }

  /** Every filled or soon filled field equals its recomputation. */
  predicate Fresh(s: State) {
    (forall k :: k in s.cache && s.copy.Get(k).Registered? ==> s.cache[k] == Whole(k, s.copy.Get(k).items))
    && (forall f :: f in s.inFlight && s.copy.Get(f.kind).Registered? ==>
          f.result == Whole(f.kind, s.copy.Get(f.kind).items))
  }

  predicate Uses(s: State, k: Kind) {
    k in s.cache || exists f :: f in s.inFlight && f.kind == k
  }

  /** run() does not change the registries behind a filled or soon filled field. */
  predicate FreezeSafe(s: State) {
    forall k :: Uses(s, k) ==> s.live.Get(k) == s.copy.Get(k)
  }

  predicate StepOk(s: State, step: Step) {
    (step.BeginRun? ==> FreezeSafe(s)) && (step.Register? ==> step.source.Registered?)
  }

  predicate RunOk(s: State, steps: seq<Step>) {
    steps == [] ||
    (RunOk(s, steps[..|steps| - 1]) && StepOk(Run(s, steps[..|steps| - 1]), steps[|steps| - 1]))
  }

  lemma WholeInjective(k: Kind, a: seq<Json>, b: seq<Json>)
    ensures Whole(k, a) == Whole(k, b) <==> a == b
  {
    assert Whole(k, a).fields[ResultKey(k)] == JArr(a) && Whole(k, b).fields[ResultKey(k)] == JArr(b);
  }

  /** run() keeps the cache fresh exactly when it changes nothing behind it. */
  lemma FreezeExact(s: State)
    requires Fresh(s) && NoHandlers(s.live) && NoHandlers(s.copy) && s.host.transport.Some?
    ensures Fresh(Apply(s, BeginRun)) <==> FreezeSafe(s)
  {
    if Fresh(Apply(s, BeginRun)) {
      forall k | Uses(s, k)
        ensures s.live.Get(k) == s.copy.Get(k)
      {
        WholeInjective(k, s.live.Get(k).items, s.copy.Get(k).items);
      }
    }
  }

  lemma StepFresh(s: State, step: Step)
    requires Fresh(s) && NoHandlers(s.live) && NoHandlers(s.copy) && StepOk(s, step)
    ensures var t := Apply(s, step); Fresh(t) && NoHandlers(t.live) && NoHandlers(t.copy)
  {
    match step
    case EndList(i) => EndFillFresh(s, i);
    case BeginRun => if s.host.transport.Some? { FreezeExact(s); }
    case _ =>
  }

  lemma EndFillFresh(s: State, i: nat)
    requires Fresh(s)
    ensures Fresh(EndFill(s, i))
  {
    if i < |s.inFlight| {
      assert s.inFlight[i] in s.inFlight;
    }
  }

  lemma {:induction false} RunFresh(s: State, steps: seq<Step>)
    requires Fresh(s) && NoHandlers(s.live) && NoHandlers(s.copy) && RunOk(s, steps)
    ensures var t := Run(s, steps); Fresh(t) && NoHandlers(t.live) && NoHandlers(t.copy)
  {
    if steps != [] {
      RunFresh(s, steps[..|steps| - 1]);
      StepFresh(Run(s, steps[..|steps| - 1]), steps[|steps| - 1]);
    }
  }

  /** After every such run, every reply is the one of a server without a cache. */
  lemma CacheTransparent(s: State, steps: seq<Step>, k: Kind, params: Json, supplied: seq<Json>)
    requires s.cache == map[] && s.inFlight == [] && NoHandlers(s.live) && NoHandlers(s.copy) && RunOk(s, steps)
    ensures ReplyTo(Run(s, steps), k, params, supplied) == Uncached(Run(s, steps), k, params, supplied)
    ensures Fresh(Run(s, steps))
  {
    RunFresh(s, steps);
  }

  /** A run() makes replies stale exactly when it changed a cached list. */
  lemma StaleExact(s: State)
    requires Fresh(s) && NoHandlers(s.live) && NoHandlers(s.copy) && s.host.transport.Some?
    requires s.enabled && s.pageSize == 0 && s.inFlight == []
    ensures var t := Apply(s, BeginRun);
            (forall k, params, supplied :: ReplyTo(t, k, params, supplied) == Uncached(t, k, params, supplied))
            <==> FreezeSafe(s)
  {
    var t := Apply(s, BeginRun);
    FreezeExact(s);
    if FreezeSafe(s) {
      forall k, params, supplied
        ensures ReplyTo(t, k, params, supplied) == Uncached(t, k, params, supplied)
      {
        FreshTransparent(t, k, params, supplied);
      }
    } else {
      var k :| k in s.cache && s.live.Get(k) != s.copy.Get(k);
      WholeInjective(k, s.live.Get(k).items, s.copy.Get(k).items);
      assert ReplyTo(t, k, JNull, []) != Uncached(t, k, JNull, []);
    }
  }

  lemma FreshTransparent(s: State, k: Kind, params: Json, supplied: seq<Json>)
    requires Fresh(s) && NoHandlers(s.copy)
    ensures ReplyTo(s, k, params, supplied) == Uncached(s, k, params, supplied)
  {
  }

  // ------------------------------------------------- which transports can go stale

  /** Only transports that deliver through the io_context, only registered
      entries, and no failed start once a list has been cached. */
  predicate Ordinary(s: State, step: Step) {
    && (step.Connect? ==> step.delivery == IoContext)
    && (step.Register? ==> step.source.Registered?)
    && (step.StartFails? && s.host.starting ==> s.cache == map[] && s.inFlight == [])
  }

  predicate OrdinaryRun(s: State, steps: seq<Step>) {
    steps == [] ||
    (OrdinaryRun(s, steps[..|steps| - 1]) && Ordinary(Run(s, steps[..|steps| - 1]), steps[|steps| - 1]))
  }

  /** Until stop() the cache is fresh and used only while registration is refused;
      after stop() nothing is delivered. */
  ghost predicate OrdinaryOk(s: State) {
    && s.host.transport != Some(OwnThread) && NoHandlers(s.live) && NoHandlers(s.copy)
    && (s.host.stopped ==> !s.host.looping)
    && (!s.host.stopped ==>
          && Fresh(s) && (s.host.running ==> s.live == s.copy) && (s.frozen ==> s.host.running)
          && (s.cache != map[] || s.inFlight != [] ==> s.host.running))
  }

  lemma OrdinaryStep(s: State, step: Step)
    requires OrdinaryOk(s) && Ordinary(s, step)
    ensures OrdinaryOk(Apply(s, step))
  {
    match step
    case EndList(i) => if !s.host.stopped { EndFillFresh(s, i); }
    case _ =>
  }

  lemma {:induction false} OrdinaryRunOk(s: State, steps: seq<Step>)
    requires OrdinaryOk(s) && OrdinaryRun(s, steps)
    ensures OrdinaryOk(Run(s, steps))
  {
    if steps != [] {
      OrdinaryRunOk(s, steps[..|steps| - 1]);
      OrdinaryStep(Run(s, steps[..|steps| - 1]), steps[|steps| - 1]);
    }
  }

  /** With the transports of the repository every list reply that is delivered is
      the uncached one, over every run with any registrations, stops and further
      runs, as long as no start fails once a list has been cached. */
  lemma OrdinaryTransparent(registry: Registry, steps: seq<Step>, k: Kind, params: Json, supplied: seq<Json>)
    requires NoHandlers(registry) && OrdinaryRun(NewServer(registry), steps)
    ensures var t := Run(NewServer(registry), steps);
            CanDeliver(t.host) ==> ReplyTo(t, k, params, supplied) == Uncached(t, k, params, supplied)
  {
    OrdinaryRunOk(NewServer(registry), steps);
    var t := Run(NewServer(registry), steps);
    if CanDeliver(t.host) {
      FreshTransparent(t, k, params, supplied);
    }
  }

  lemma RunMore(s: State, steps: seq<Step>, step: Step)
    ensures Run(s, steps + [step]) == Apply(Run(s, steps), step)
  {
    assert (steps + [step])[..|steps|] == steps;
  }

  /** Steps one after another. */
  lemma {:induction false} RunAll(s: State, steps: seq<Step>, more: seq<Step>)
    ensures Run(s, steps + more) == Run(Run(s, steps), more)
    decreases |more|
  {
    if more == [] {
      assert steps + more == steps;
    } else {
      var init := more[..|more| - 1];
      RunAll(s, steps, init);
      RunMore(s, steps + init, more[|more| - 1]);
      assert steps + more == steps + init + [more[|more| - 1]];
    }
  }

  const LISTED := [List(Tools, []), EndList(0)]

  lemma ListedOnce(s: State)
    requires CanDeliver(s.host) && Cacheable(s) && s.cache == map[] && s.inFlight == [] && s.copy.tools.Registered?
    ensures Run(s, LISTED) == s.(cache := map[Tools := Whole(Tools, s.copy.tools.items)])
  {
    assert LISTED[..1] == [List(Tools, [])] && LISTED[..1][..0] == [];
    assert Run(s, LISTED[..1]) == Apply(Run(s, []), List(Tools, []));
    var f := Fill(Tools, Whole(Tools, s.copy.tools.items));
    assert [f][..0] + [f][1..] == [];
  }

  lemma Three(s: State, steps: seq<Step>) returns (t: State)
    requires |steps| == 3
    ensures t == Run(s, steps) == Apply(Apply(Apply(s, steps[0]), steps[1]), steps[2])
  {
    t := Run(s, steps);
    RunMore(s, [], steps[0]);
    RunMore(s, [steps[0]], steps[1]);
    RunMore(s, [steps[0], steps[1]], steps[2]);
    assert steps == [steps[0], steps[1]] + [steps[2]] && [steps[0], steps[1]] == [steps[0]] + [steps[1]];
    assert [] + [steps[0]] == [steps[0]];
  }

  lemma Four(s: State, steps: seq<Step>) returns (t: State)
    requires |steps| == 4
    ensures t == Run(s, steps) == Apply(Apply(Apply(Apply(s, steps[0]), steps[1]), steps[2]), steps[3])
  {
    var s3 := Three(s, steps[..3]);
    RunMore(s, steps[..3], steps[3]);
    assert steps == steps[..3] + [steps[3]];
    t := Run(s, steps);
  }

  /** A server that has run and answered one tools/list from its registry. */
  function Served(registry: Registry, d: Delivery): State
    requires registry.tools.Registered?
  {
    State(registry, registry, true, true, 0, map[Tools := Whole(Tools, registry.tools.items)], [],
          Host(Some(d), true, true, true, false, true, false))
  }

  lemma ReachServed(registry: Registry, d: Delivery) returns (steps: seq<Step>)
    requires registry.tools.Registered?
    ensures Run(NewServer(registry), steps) == Served(registry, d)
  {
    var first := [Connect(d), BeginRun, EnterLoop];
    var s1 := Three(NewServer(registry), first);
    ListedOnce(s1);
    RunAll(NewServer(registry), first, LISTED);
    steps := first + LISTED;
  }

  /** The tools/list reply is deliverable, cached, and not what the registry holds. */
  predicate Stale(s: State, items: seq<Json>) {
    && CanDeliver(s.host)
    && ReplyTo(s, Tools, JNull, []) == Result(Whole(Tools, items))
    && Uncached(s, Tools, JNull, []) == Result(Whole(Tools, []))
    && items != []
  }

  const STOP_AND_RUN := [Stop, Register(Tools, Registered([])), Connect(OwnThread), BeginRun]
  const FAIL_AND_RUN := [BeginRun, StartFails, Register(Tools, Registered([])), BeginRun]

  lemma StopAndRunStale(registry: Registry, items: seq<Json>)
    requires registry.tools == Registered(items) && items != []
    ensures Stale(Run(Served(registry, OwnThread), STOP_AND_RUN), items)
  {
    var t := Four(Served(registry, OwnThread), STOP_AND_RUN);
  }

  lemma FailAndRunStale(registry: Registry, items: seq<Json>)
    requires registry.tools == Registered(items) && items != []
    ensures Stale(Run(Served(registry, IoContext), FAIL_AND_RUN), items)
  {
    var t := Four(Served(registry, IoContext), FAIL_AND_RUN);
  }

  /** A user's transport with a thread of its own: run, list, stop, register,
      connect and run again; the io_context is gone but the thread delivers, and
      the reply is the list of the first run. */
  lemma OwnThreadStale(registry: Registry, items: seq<Json>) returns (steps: seq<Step>)
    requires registry.tools == Registered(items) && items != []
    ensures Stale(Run(NewServer(registry), steps), items)
  {
    var first := ReachServed(registry, OwnThread);
    RunAll(NewServer(registry), first, STOP_AND_RUN);
    StopAndRunStale(registry, items);
    steps := first + STOP_AND_RUN;
  }

  /** An io_context transport: while the loop runs, run() is called once more and
      its start throws, which thaws the registries; after a registration a third
      run() freezes them again, and the cached list is the old one. */
  lemma FailedStartStale(registry: Registry, items: seq<Json>) returns (steps: seq<Step>)
    requires registry.tools == Registered(items) && items != []
    ensures Stale(Run(NewServer(registry), steps), items)
  {
    var first := ReachServed(registry, IoContext);
    RunAll(NewServer(registry), first, FAIL_AND_RUN);
    FailAndRunStale(registry, items);
    steps := first + FAIL_AND_RUN;
  }

  /** A user list handler whose answer changes is not transparent: the first answer sticks. */
  lemma HandlerGoesStale(reg: Registry, a: seq<Json>, b: seq<Json>) returns (steps: seq<Step>)
    requires reg.tools == UserHandler && a != b
    ensures var t := Run(NewServer(reg), steps);
            && CanDeliver(t.host)
            && ReplyTo(t, Tools, JNull, b) == Result(Whole(Tools, a))
            && Uncached(t, Tools, JNull, b) == Result(Whole(Tools, b))
            && Whole(Tools, a) != Whole(Tools, b)
  {
    var first := [Connect(IoContext), BeginRun, EnterLoop];
    var s0 := NewServer(reg);
    var s1 := Three(s0, first);
    RunMore(s0, first, List(Tools, a));
    RunMore(s0, first + [List(Tools, a)], EndList(0));
    steps := first + [List(Tools, a)] + [EndList(0)];
    WholeInjective(Tools, a, b);
  }

  // --------------------------------------------------------------- the object

  class ListServer {
    var live: Registry
    var copy: Registry
    var frozen: bool
    var enabled: bool
    var pageSize: nat
    var cache: map<Kind, Json>
    var host: Host
    var inFlight: seq<Fill>     // held by the threads between their two sections

    ghost function View(): State
      reads this
    {
      State(live, copy, frozen, enabled, pageSize, cache, inFlight, host)
    }

    constructor (registry: Registry)
      ensures View() == NewServer(registry)
    {
      live, copy, frozen, enabled, pageSize, cache, inFlight := registry, EMPTY, false, true, 0, map[], [];
      host := NEW_HOST;
    }

    /** A request whose two sections are not interrupted. */
    method HandleListRequest(k: Kind, params: Json, supplied: seq<Json>) returns (reply: Reply)
      modifies this`cache, this`inFlight
      ensures reply == ReplyTo(old(View()), k, params, supplied)
      ensures View() == FillBoth(old(View()), k, supplied)
    {
      var fill;
      reply, fill := LookupSection(k, params, supplied);
      if fill.Some? {
        FillSection(fill.value, |inFlight| - 1);
      }
    }

    /** Everything up to the fill: the reply is decided, and on a cacheable miss
        the result is still to be stored. */
    method LookupSection(k: Kind, params: Json, supplied: seq<Json>) returns (reply: Reply, fill: Option<Fill>)
      modifies this`inFlight
      ensures reply == ReplyTo(old(View()), k, params, supplied)
      ensures View() == StartFill(old(View()), k, supplied)
      ensures fill.Some? <==> Cacheable(old(View())) && k !in cache
      ensures fill.Some? ==> inFlight == old(inFlight) + [fill.value]
    {
      fill := None;
      if pageSize > 0 {
        reply := ServePage(k, params, supplied);
        return;
      }
      var cacheable := enabled && frozen;
      if cacheable && k in cache {
        return Result(cache[k]), None;
      }
      var items := ProduceItems(k, supplied);
      reply := Result(Whole(k, items));
      if cacheable {
        fill := Some(Fill(k, Whole(k, items)));
        inFlight := inFlight + [fill.value];
      }
    }

    /** The second lock section, whatever happened since the first. */
    method FillSection(f: Fill, i: nat)
      requires i < |inFlight| && inFlight[i] == f
      modifies this`cache, this`inFlight
      ensures View() == EndFill(old(View()), i)
    {
      cache := cache[f.kind := f.result];
      inFlight := inFlight[..i] + inFlight[i + 1..];
    }

    method ServePage(k: Kind, params: Json, supplied: seq<Json>) returns (reply: Reply)
      requires pageSize > 0
      ensures reply == Uncached(View(), k, params, supplied)
    {
      match StartOf(params)
      case BadCursor => reply := Error(INVALID_PARAMS, "Invalid cursor");
      case Overflow => reply := Error(INTERNAL_ERROR, "stoull");
      case Offset(n) =>
        var items := ProduceItems(k, supplied);
        reply := PageReply(k, PageAt(items, pageSize, n));
    }

    method ProduceItems(k: Kind, supplied: seq<Json>) returns (items: seq<Json>)
      ensures items == Produce(View(), k, supplied)
    {
      var src := if frozen then copy.Get(k) else live.Get(k);
      items := if src.Registered? then src.items else supplied;
    }

    method InvalidateListCache()
      modifies this`cache
      ensures View() == Apply(old(View()), Invalidate)
    {
      cache := map[];
    }

    method SetListPageSize(n: nat)
      modifies this`cache, this`pageSize
      ensures View() == Apply(old(View()), SetPageSize(n))
    {
      pageSize := n;
      InvalidateListCache();
    }

    /** register_tool and its kin, behind ensure_pre_run. */
    method RegisterSource(k: Kind, src: Source)
      modifies this`live
      ensures View() == Apply(old(View()), Register(k, src))
    {
      if host.running {
        return;
      }
      live := live.Set(k, src);
    }

    method FreezeRegistries()
      modifies this`copy, this`frozen, this`host
      ensures View() == Apply(old(View()), BeginRun)
    {
      if host.transport.None? {
        return;
      }
      copy := live;
      frozen := true;
      host := host.(running := true, starting := true, started := true);
    }

    method StopServer()
      modifies this`host
      ensures View() == Apply(old(View()), Stop)
    {
      if host.stopped {
        return;
      }
      host := host.(running := false);
      host := host.(attached := false, started := false);
      host := host.(looping := false, stopped := true);
    }
  }
}
